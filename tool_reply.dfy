/** The dictionary every agent tool hands back: `{"status": "success",
    "report": …}` or `{"status": "error", "error_message": …}`. */
module ToolReplies {

  datatype ToolReply = Ok(report: string) | Err(errorMessage: string) {
    /** The `status` field. */
    function Status(): string {
      if Ok? then "success" else "error"
    }
  }
}
