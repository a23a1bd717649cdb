/**
 * The record the widget keeps for a chosen emoji and the field-update payload
 * it sends to the host CMS after every pick or clear (src/App.tsx).
 */
module Payloads {
  import opened Options
  import opened Ascii

  /** The `EmojiData` interface: `name` is the one optional field. */
  datatype EmojiData = EmojiData(id: string, native: string, unified: string, name: Option<string>)

  /** The value handed to `sendMessage`; `data` is `null` after a clear. */
  datatype Payload = Payload(title: string, description: string, imageUrl: string, data: Option<EmojiData>)

  /** The CDN directory the preview image is taken from, and the file extension. */
  const ImageBase: string := "https://cdn.jsdelivr.net/npm/emoji-datasource-apple/img/apple/64/"
  const ImageExtension: string := ".png"

  /** JavaScript truthiness of an optional string: present and non-empty. */
  predicate Truthy(s: Option<string>) {
    s.Some? && s.value != ""
  }

  /** `name || id`: the name when it is truthy, the id otherwise. */
  function Label(d: EmojiData): string {
    if Truthy(d.name) then d.name.value else d.id
  }

  /** `${name || id} (${unified})`. */
  function Description(d: EmojiData): string {
    Label(d) + " (" + d.unified + ")"
  }

  /** The preview URL: the CDN directory, the lower-cased code, the extension. */
  function ImageUrl(unified: string): (r: string)
    ensures |r| == |ImageBase| + |unified| + |ImageExtension|
    ensures r[..|ImageBase|] == ImageBase
    ensures r[|r| - |ImageExtension|..] == ImageExtension
    ensures IsLower(r[|ImageBase|..|r| - |ImageExtension|])
    ensures SameIgnoringCase(r[|ImageBase|..|r| - |ImageExtension|], unified)
  {
    var r := ImageBase + ToLower(unified) + ImageExtension;
    assert r[|ImageBase|..|r| - |ImageExtension|] == ToLower(unified);
    r
  }

  /** The payload sent after a pick of `d`. */
  function PickPayload(d: EmojiData): (p: Payload)
    ensures p.title == d.native
    ensures p.data == Some(d)
    ensures Truthy(d.name) ==> p.description == d.name.value + " (" + d.unified + ")"
    ensures !Truthy(d.name) ==> p.description == d.id + " (" + d.unified + ")"
    ensures ImageCode(p.imageUrl) == Some(ToLower(d.unified))
  {
    ImageCodeRoundTrip(d.unified);
    Payload(d.native, Description(d), ImageUrl(d.unified), Some(d))
  }

  /** The payload sent after a clear: every text field empty, no data. */
  const ClearPayload: Payload := Payload("", "", "", None)

  /** The code embedded in a preview URL, or `None` when `url` is not one. */
  function ImageCode(url: string): (r: Option<string>)
    ensures r.Some? ==> ImageBase + r.value + ImageExtension == url
  {
    if |url| >= |ImageBase| + |ImageExtension|
       && url[..|ImageBase|] == ImageBase
       && url[|url| - |ImageExtension|..] == ImageExtension
    then
      var code := url[|ImageBase|..|url| - |ImageExtension|];
      assert ImageBase + code + ImageExtension == url;
      Some(code)
    else None
  }

  /** The preview URL gives back the lower-cased code it was built from. */
  lemma ImageCodeRoundTrip(unified: string)
    ensures ImageCode(ImageUrl(unified)) == Some(ToLower(unified))
  {
  }

  /** Lower-casing the code first yields the same URL: the URL depends only on the code up to case. */
  lemma ImageUrlIgnoresCase(unified: string, other: string)
    requires SameIgnoringCase(unified, other)
    ensures ImageUrl(unified) == ImageUrl(other)
  {
  }

  /** A string without an opening parenthesis, as a hyphenated hex code is. */
  predicate NoOpenParen(s: string) {
    forall i :: 0 <= i < |s| ==> s[i] != '('
  }

  /** The index of the last `(` in `s`, if any. */
  function LastOpenParen(s: string): (r: Option<nat>)
    ensures r.Some? ==> r.value < |s| && s[r.value] == '(' && NoOpenParen(s[r.value + 1..])
    ensures r.None? ==> NoOpenParen(s)
    decreases |s|
  {
    if s == [] then None
    else if s[|s| - 1] == '(' then Some(|s| - 1)
    else
      var r := LastOpenParen(s[..|s| - 1]);
      assert r.Some? ==> s[r.value + 1..] == s[..|s| - 1][r.value + 1..] + [s[|s| - 1]];
      r
  }

  /** Splits a description `head (code)` at its last ` (`; `None` when it has not that shape. */
  function ParseDescription(desc: string): (r: Option<(string, string)>)
    ensures r.Some? ==> desc == r.value.0 + " (" + r.value.1 + ")" && NoOpenParen(r.value.1)
  {
    if |desc| == 0 || desc[|desc| - 1] != ')' then None
    else match LastOpenParen(desc[..|desc| - 1])
      case None => None
      case Some(k) =>
        if k == 0 || desc[k - 1] != ' ' then None
        else
          var head := desc[..k - 1];
          var code := desc[k + 1..|desc| - 1];
          assert desc == head + " (" + code + ")";
          Some((head, code))
  }

  /** When the code holds no `(`, the host can read the label and the code back out of the description. */
  lemma {:induction false} DescriptionRoundTrip(d: EmojiData)
    requires NoOpenParen(d.unified)
    ensures ParseDescription(Description(d)) == Some((Label(d), d.unified))
  {
    var desc := Description(d);
    var body := desc[..|desc| - 1];
    var k := |Label(d)| + 1;
    assert body == Label(d) + " (" + d.unified;
    assert body[k] == '(';
    assert body[k + 1..] == d.unified;
    var found := LastOpenParen(body);
    assert found == Some(k);
    assert desc[..k - 1] == Label(d);
    assert desc[k + 1..|desc| - 1] == d.unified;
  }
}
