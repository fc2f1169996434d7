/** The error taxonomy of `src-tauri/src/errors.rs`: only the variants and the
    data the core inspects (HTTP statuses, the missing index key) are kept; the
    foreign `source` errors and the message strings are dropped. */
module Errors {

  /** An HTTP status code as the error variants carry it (`u16`). */
  newtype u16 = x: int | 0 <= x < 0x1_0000

  /** Errors from the global model index. */
  datatype ModelIndexError =
    | ParseFailed
    | Incomplete(missingKey: string)

  datatype Error =
    | AlreadyDictating
    | NotDictating
    | TmpFileCreationFailed
    | DictationTaskPanicked
    | NoInputDevice
    | GetDefaultInputConfigFailed
    | CreateWavWriterFailed
    | BuildInputStreamFailed
    | StartStreamFailed
    | LoadWhisperCtxFailed
    | CreateWhisperStateFailed
    | CreateWavReaderFailed
    | ParseSampleFailed
    | WhisperRunFailed
    | GetNumSegmentsFailed
    | GetSegmentTextFailed
    | NoHomeDir
    | DownloadModelFailed
    | DownloadModelBadStatus(status: u16)
    | CreateModelFileFailed
    | BadChunk
    | WriteChunkFailed
    | GetModelIndexFailed
    | GetModelIndexBadStatus(status: u16)
    | IndexError(cause: ModelIndexError)  // `Error::ModelIndexError(#[from] ModelIndexError)`
    | CreateSottoDirFailed
}
