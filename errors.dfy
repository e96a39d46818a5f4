/** The error codes (error_t) the client's functions and process return.
    Their numeric values come from headers that are not part of this model:
    NoError stands for 0 (main compares df_init's result with 0 and returns
    error_code, which starts at 0) and every other constructor for a distinct
    nonzero value. */
module Errors {

  datatype ErrorCode =
    | NoError
    | ErrParameters
    | ErrConnection
    | ErrConnectionInit
    | ErrLwsInit
    | ErrJsonParse
    | ErrDataPathExceedMaxPath
    | ErrDataFileExceedMaxPath
    | ErrApiKeyExceedMaxLen
    | ErrDataFileOpen
    | ErrDataFileWrite
}
