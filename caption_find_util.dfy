/** `CaptionFindUtil.caption`: the text a message carries, for command matching. */
module CaptionFindUtil {
  import opened Wrappers
  import opened Domain

  /**
   * The body when there is one (an empty body included, even beside an
   * image), else the image's caption, which may itself be missing, else "".
   */
  function Caption(data: WebhookData): (c: Option<string>)
    ensures data.body.Some? ==> c == data.body
    ensures data.body.None? && data.image.Some? ==> c == data.image.value.caption
    ensures data.body.None? && data.image.None? ==> c == Some("")
  {
    if data.body.Some? then data.body
    else if data.image.Some? then data.image.value.caption
    else Some("")
  }
}
