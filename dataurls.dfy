/** The `data:` URL in which both front ends send an image to the model. */
module DataUrls {
  import opened Optional
  import opened Strings

  /** `f"data:{mime_type};base64,{image_b64}"`. */
  function DataUrl(mime: string, payload: string): string {
    "data:" + mime + ";base64," + payload
  }

  datatype Parsed = Parsed(mime: string, payload: string)

  /** Reads a base64 `data:` URL back into its media type and payload; the
      media type ends at the first `;`. */
  function ParseDataUrl(url: string): (p: Option<Parsed>)
    ensures p.Some? ==> ';' !in p.value.mime
    ensures p.Some? ==> DataUrl(p.value.mime, p.value.payload) == url
  {
    if !StartsWith(url, "data:") then None
    else
      var rest := url[5..];
      var k := FirstIndexOf(rest, ';');
      FirstIndexOfNone(rest, ';');
      if StartsWith(rest[k..], ";base64,") then
        assert url == "data:" + rest[..k] + ";base64," + rest[k + 8..];
        Some(Parsed(rest[..k], rest[k + 8..]))
      else None
  }

  /** A media type without `;` and any payload survive the round trip. */
  lemma DataUrlRoundTrip(mime: string, payload: string)
    requires ';' !in mime
    ensures ParseDataUrl(DataUrl(mime, payload)) == Some(Parsed(mime, payload))
  {
    var url := DataUrl(mime, payload);
    var rest := url[5..];
    assert rest == mime + [';'] + ("base64," + payload);
    FirstIndexOfAfter(mime, ';', "base64," + payload);
    assert StartsWith(url, "data:");
    assert rest[|mime|..] == ";base64," + payload;
    assert rest[..|mime|] == mime;
    assert rest[|mime| + 8..] == payload;
  }
}
