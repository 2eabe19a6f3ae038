/**
  The part of the SMTP engine (github.com/bradfitz/go-smtpd/smtpd) that the
  mail sink consumes. The engine itself (wire protocol, connections) is not
  part of this model.
 */
module Smtpd {

  /** An address as the engine hands it over: only its two accessors,
      Email() and Hostname(), are visible to the mail sink. */
  datatype MailAddress = MailAddress(email: string, hostname: string)
}
