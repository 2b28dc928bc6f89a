/** The ingestion log that the mail services share: one entry per message. */
module MailLog {
  type MessageId = string

  datatype LogStatus = Parsed | Skipped | Failed | Unrecognised
}
