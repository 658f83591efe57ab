/** The payload handed to the e-mail provider (`resend.Emails.send`). */
module Mail {
  import opened PyValue

  /** `to` is what the caller passes: a list of addresses or one string. */
  datatype Email = Email(sender: string, to: Value, subject: string, html: string)

  const Sender: string := "alerts@resend.dev"
}
