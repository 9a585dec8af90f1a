/** The hook pair that guards a stored secret in a settings global
    (`smtpPassword` in src/globals/EmailSettings.ts, `twilioAuthToken` in
    src/globals/SmsSettings.ts): reads through an external API see a mask,
    and writing the mask or nothing back keeps the stored secret. */
module SecretField {
  import opened PayloadHooks

  /** The placeholder shown instead of a secret: eight U+2022 bullets. */
  const Mask: string := "\U{2022}\U{2022}\U{2022}\U{2022}\U{2022}\U{2022}\U{2022}\U{2022}"

  /** The field's `afterRead` hook. A set secret read through REST or
      GraphQL becomes the mask; local reads (tasks, server code) and empty
      values pass through. */
  function MaskOnRead(value: string, api: PayloadApi): (r: string)
    ensures IsExternalApi(api) && value != "" ==> r == Mask
    ensures !IsExternalApi(api) || value == "" ==> r == value
    ensures IsExternalApi(api) ==> r == "" || r == Mask
  {
    if value != "" && IsExternalApi(api) then Mask else value
  }

  /** The field's `beforeChange` hook, given the incoming value and the
      stored one (empty when there is none). An empty or masked value keeps
      a stored secret; anything else is stored as given. */
  function KeepOnWrite(value: string, stored: string): (r: string)
    ensures (value == "" || value == Mask) && stored != "" ==> r == stored
    ensures value != "" && value != Mask ==> r == value
    ensures stored == "" ==> r == value
  {
    if (value == "" || value == Mask) && stored != "" then stored else value
  }

  /** Writing back exactly what any read returned leaves the stored secret
      as it was. */
  lemma ReadThenWriteKeepsSecret(stored: string, api: PayloadApi)
    ensures KeepOnWrite(MaskOnRead(stored, api), stored) == stored
  {
  }

  /** With a secret stored, the only way to store the mask is to have had
      the mask stored already: a masked form round trip never replaces a
      real secret by the placeholder. */
  lemma MaskNeverReplacesSecret(value: string, stored: string)
    requires stored != ""
    ensures KeepOnWrite(value, stored) == Mask ==> stored == Mask
  {
  }
}
