/** The `email-settings` global (src/globals/EmailSettings.ts): the SMTP
    configuration, its defaults, and the password's mask and preserve
    hooks applied to the whole document. */
module EmailSettings {
  import opened Wrappers
  import opened PayloadHooks
  import SecretField

  /** The `smtpSecure` options. */
  datatype Encryption = Tls | Ssl | NoEncryption

  /** The global's document; an empty string stands for an absent text
      field. */
  datatype EmailSettingsDoc = EmailSettingsDoc(
    enabled: bool,
    smtpHost: string,
    smtpPort: Option<int>,
    smtpSecure: Option<Encryption>,
    smtpUsername: string,
    smtpPassword: string,
    smtpFromAddress: string,
    smtpFromName: string,
    smtpReplyTo: string)

  /** The document a fresh installation starts with: the field defaults
      (`enabled` false, port 587, encryption `tls`) and nothing else set. */
  const Defaults: EmailSettingsDoc :=
    EmailSettingsDoc(false, "", Some(587), Some(Tls), "", "", "", "", "")

  /** The document as a read through `api` returns it. */
  function Read(doc: EmailSettingsDoc, api: PayloadApi): (r: EmailSettingsDoc)
    ensures r.(smtpPassword := doc.smtpPassword) == doc
    ensures IsExternalApi(api) && doc.smtpPassword != "" ==> r.smtpPassword == SecretField.Mask
    ensures !IsExternalApi(api) ==> r == doc
  {
    doc.(smtpPassword := SecretField.MaskOnRead(doc.smtpPassword, api))
  }

  /** The document a save of `incoming` stores over `original`. */
  function Write(incoming: EmailSettingsDoc, original: EmailSettingsDoc): (r: EmailSettingsDoc)
    ensures r.(smtpPassword := incoming.smtpPassword) == incoming
    ensures (incoming.smtpPassword == "" || incoming.smtpPassword == SecretField.Mask) && original.smtpPassword != "" ==>
      r.smtpPassword == original.smtpPassword
    ensures incoming.smtpPassword != "" && incoming.smtpPassword != SecretField.Mask ==> r.smtpPassword == incoming.smtpPassword
  {
    incoming.(smtpPassword := SecretField.KeepOnWrite(incoming.smtpPassword, original.smtpPassword))
  }

  /** Saving the settings form unchanged, after the admin interface read it
      with the password masked, stores the same document. */
  lemma {:induction false} SaveUnchangedKeepsDocument(doc: EmailSettingsDoc, api: PayloadApi)
    ensures Write(Read(doc, api), doc) == doc
  {
    SecretField.ReadThenWriteKeepsSecret(doc.smtpPassword, api);
  }
}
