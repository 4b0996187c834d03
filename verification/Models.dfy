/** The entities that several components exchange. */
module Models {

  datatype Option<+T> = None | Some(value: T)

  /** Times and durations are nanoseconds. */
  const SECOND := 1_000_000_000

  /** A request to scan one container image.  `registryName` names an entry of the configuration, `registry`
      is the host the image lives on.  The retry counter is the only field the pipeline updates. */
  datatype ScanRequest = ScanRequest(imageRef: string, registryName: string, registry: string, digest: string,
                                     requestId: string, retryCount: int)

  datatype ScanStatus = Pending | Running | Success | Failed | Timeout | Retrying

  datatype ScanResult = ScanResult(imageRef: string, requestId: string, status: ScanStatus, error: string,
                                   startedAt: int, completedAt: int, duration: int)
}
