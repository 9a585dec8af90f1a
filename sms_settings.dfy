/** The `sms-settings` global (src/globals/SmsSettings.ts): the Twilio
    configuration, the template-length defaults, and the auth token's mask
    and preserve hooks applied to the whole document. */
module SmsSettings {
  import opened Wrappers
  import opened PayloadHooks
  import SecretField

  /** The global's document; an empty string stands for an absent text
      field. The message templates are not part of this model. */
  datatype SmsSettingsDoc = SmsSettingsDoc(
    enabled: bool,
    twilioAccountSid: string,
    twilioAuthToken: string,
    twilioFromNumber: string,
    twilioMessagingServiceSid: string,
    templateTitleMaxLength: Option<int>,
    templateMessageMaxLength: Option<int>)

  /** The field defaults: `enabled` false, title length 50, message length
      100. */
  const Defaults: SmsSettingsDoc := SmsSettingsDoc(false, "", "", "", "", Some(50), Some(100))

  /** The document as a read through `api` returns it. */
  function Read(doc: SmsSettingsDoc, api: PayloadApi): (r: SmsSettingsDoc)
    ensures r.(twilioAuthToken := doc.twilioAuthToken) == doc
    ensures IsExternalApi(api) && doc.twilioAuthToken != "" ==> r.twilioAuthToken == SecretField.Mask
    ensures !IsExternalApi(api) ==> r == doc
  {
    doc.(twilioAuthToken := SecretField.MaskOnRead(doc.twilioAuthToken, api))
  }

  /** The document a save of `incoming` stores over `original`. */
  function Write(incoming: SmsSettingsDoc, original: SmsSettingsDoc): (r: SmsSettingsDoc)
    ensures r.(twilioAuthToken := incoming.twilioAuthToken) == incoming
    ensures (incoming.twilioAuthToken == "" || incoming.twilioAuthToken == SecretField.Mask) && original.twilioAuthToken != "" ==>
      r.twilioAuthToken == original.twilioAuthToken
    ensures incoming.twilioAuthToken != "" && incoming.twilioAuthToken != SecretField.Mask ==> r.twilioAuthToken == incoming.twilioAuthToken
  {
    incoming.(twilioAuthToken := SecretField.KeepOnWrite(incoming.twilioAuthToken, original.twilioAuthToken))
  }

  /** Saving the settings form unchanged, after the admin interface read it
      with the token masked, stores the same document. */
  lemma {:induction false} SaveUnchangedKeepsDocument(doc: SmsSettingsDoc, api: PayloadApi)
    ensures Write(Read(doc, api), doc) == doc
  {
    SecretField.ReadThenWriteKeepsSecret(doc.twilioAuthToken, api);
  }
}
