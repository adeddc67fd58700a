/** Messages sent to the background process over the runtime channel. */
module Messages {

  /** `chat-in-progress` and `chat-complete` carry the sending page's url;
      `get-status` carries nothing. */
  datatype Message =
    | ChatInProgress(url: string)
    | ChatComplete(url: string)
    | GetStatus
}
