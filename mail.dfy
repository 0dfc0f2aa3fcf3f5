/** The mail sink's request record. */
module Mail {
  import opened Basics

  /** One outbound email: a recipient and a message body. The recipient is
      optional because the dispatcher passes the request's `target_email`
      through unchecked, and that field may be absent. */
  datatype SmtpRequest = SmtpRequest(to: Option<string>, message: string)
}
