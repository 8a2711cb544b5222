/** `services/webhook.py`: the summary posted to a chat webhook.  The HTTP
    request is left out; the model stops at the payload it would send. */
module Webhook {
  import opened Wrappers

  const ExcerptLimit: nat := 1800
  const TruncationMarker: string := "\n…(truncated)"

  /** The content, cut to its first 1800 characters plus a marker when longer. */
  function Excerpt(content: string): (r: string)
    ensures |content| <= ExcerptLimit ==> r == content
    ensures |content| > ExcerptLimit ==> r == content[..ExcerptLimit] + TruncationMarker
  {
    if |content| <= ExcerptLimit then content else content[..ExcerptLimit] + TruncationMarker
  }

  /** The Slack-style `text` and the Discord-style `content` fields. */
  datatype Payload = Payload(text: string, content: string)

  /** `send_webhook`: no payload for a missing or empty URL. */
  function SendWebhook(url: Option<string>, title: string, content: string): (p: Option<Payload>)
    ensures p.None? <==> url.None? || url.value == ""
  {
    if url.None? || url.value == "" then None
    else
      var excerpt := Excerpt(content);
      Some(Payload("*" + title + "*\n" + excerpt, "**" + title + "**\n" + excerpt))
  }

  /** The excerpt keeps the start of the content, at most 1800 characters of
      it, and is never longer than 1800 characters plus the marker. */
  lemma ExcerptKeepsStart(content: string)
    ensures var r := Excerpt(content);
      var kept := if |content| <= ExcerptLimit then |content| else ExcerptLimit;
      && |r| <= ExcerptLimit + |TruncationMarker|
      && |r| >= kept
      && r[..kept] == content[..kept]
  {
  }

  /** Cutting an excerpt again changes nothing. */
  lemma ExcerptIdempotent(content: string)
    ensures Excerpt(Excerpt(content)) == Excerpt(content)
  {
    if |content| > ExcerptLimit {
      var r := Excerpt(content);
      assert |r| == ExcerptLimit + 13;
      assert r[..ExcerptLimit] == content[..ExcerptLimit];
    }
  }

  /** Both payload fields are the bold title, a newline, then the excerpt. */
  lemma PayloadCarriesExcerpt(url: string, title: string, content: string)
    requires url != ""
    ensures var p := SendWebhook(Some(url), title, content);
      && p.Some?
      && |p.value.text| == |title| + 3 + |Excerpt(content)|
      && p.value.text[|title| + 3..] == Excerpt(content)
      && p.value.text[..|title| + 3] == "*" + title + "*\n"
      && p.value.content[|title| + 5..] == Excerpt(content)
      && p.value.content[..|title| + 5] == "**" + title + "**\n"
  {
    var excerpt := Excerpt(content);
    var p := SendWebhook(Some(url), title, content);
    assert p.value.text == ("*" + title + "*\n") + excerpt;
    assert p.value.content == ("**" + title + "**\n") + excerpt;
  }
}
