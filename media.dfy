/** The media classifier: the kind of a record's media is sniffed from the
    extension of its file name, and the URL the player loads it from carries
    the record id and a `type` parameter. */
module Media {
  import opened Records

  const MediaEndpoint: string := "http://localhost:3333/api/dislok/media"
  const QueryPrefix: string := MediaEndpoint + "?id_display="
  const TypeKey: string := "&type="

  /** The result of classifying one record's media. */
  datatype Classified = Classified(url: string, kind: MediaKind)

  /** The parameters a media URL carries. */
  datatype MediaQuery = MediaQuery(idDisplay: int, typeParam: string)

  /** The text after the last '.' of `s`, or all of `s` when it has none:
      what `s.split('.').pop()` yields. */
  function LastSegment(s: string): (ext: string)
    ensures '.' !in ext
    ensures |ext| <= |s| && ext == s[|s| - |ext|..]
    ensures |ext| < |s| ==> s[|s| - |ext| - 1] == '.'
  {
    if s == [] then []
    else if s[|s| - 1] == '.' then []
    else LastSegment(s[..|s| - 1]) + [s[|s| - 1]]
  }

  /** The three properties of LastSegment's contract determine it. */
  lemma LastSegmentUnique(s: string, r: string)
    requires '.' !in r
    requires |r| <= |s| && r == s[|s| - |r|..]
    requires |r| < |s| ==> s[|s| - |r| - 1] == '.'
    ensures LastSegment(s) == r
  {
    var e := LastSegment(s);
    assert |e| == |r|;
  }

  /** The extension of `stem.ext` is `ext` whenever `ext` has no dot. */
  lemma ExtensionAfterLastDot(stem: string, ext: string)
    requires '.' !in ext
    ensures LastSegment(stem + "." + ext) == ext
  {
    var s := stem + "." + ext;
    assert s[|s| - |ext|..] == ext;
    assert s[|s| - |ext| - 1] == '.';
    LastSegmentUnique(s, ext);
  }

  /** A name without any dot is its own extension. */
  lemma NoDotIsWholeName(s: string)
    requires '.' !in s
    ensures LastSegment(s) == s
  {
    assert s[|s| - |s|..] == s;
    LastSegmentUnique(s, s);
  }

  /** `toLowerCase` on the letters A to Z; every other character is kept. */
  function LowerChar(c: char): char
  {
    if 'A' <= c <= 'Z' then (c as int + 32) as char else c
  }

  function Lower(s: string): string
  {
    if s == [] then [] else [LowerChar(s[0])] + Lower(s[1..])
  }

  /** The kind named by an already lower-cased extension. */
  function KindOfExtension(ext: string): MediaKind
  {
    if ext == "jpg" || ext == "jpeg" || ext == "png" then Image
    else if ext == "mp4" then Video
    else Youtube
  }

  /** The `type` parameter the URL of a kind carries. */
  function TypeParam(kind: MediaKind): string
  {
    if kind == Youtube then "embed" else "file"
  }

  // Decimal rendering of the id, as a template literal renders an integer.

  predicate IsDigits(s: string)
  {
    forall i :: 0 <= i < |s| ==> '0' <= s[i] <= '9'
  }

  function DigitChar(d: nat): char
    requires d < 10
  {
    ('0' as int + d) as char
  }

  function NatToString(n: nat): (s: string)
    ensures |s| >= 1 && IsDigits(s)
  {
    if n < 10 then [DigitChar(n)] else NatToString(n / 10) + [DigitChar(n % 10)]
  }

  function IntToString(i: int): (s: string)
    ensures |s| >= 1 && '&' !in s
  {
    if i < 0 then "-" + NatToString(-i) else NatToString(i)
  }

  /** The value of a string of decimal digits; `None` when a character is not
      a digit. */
  function ParseNat(s: string): Option<nat>
  {
    if s == [] then Some(0)
    else
      var c := s[|s| - 1];
      if !('0' <= c <= '9') then None
      else match ParseNat(s[..|s| - 1])
        case None => None
        case Some(p) => Some(p * 10 + (c as int - '0' as int))
  }

  /** An optionally signed decimal integer; the empty string and a lone sign
      are not numbers. */
  function ParseInt(s: string): Option<int>
  {
    if |s| > 1 && s[0] == '-' then
      match ParseNat(s[1..])
      case None => None
      case Some(n) => Some(0 - n)
    else if |s| > 0 then
      match ParseNat(s)
      case None => None
      case Some(n) => Some(n)
    else None
  }

  lemma {:induction false} ParseNatToString(n: nat)
    ensures ParseNat(NatToString(n)) == Some(n)
  {
    var s := NatToString(n);
    if n >= 10 {
      ParseNatToString(n / 10);
      assert s[..|s| - 1] == NatToString(n / 10);
    }
  }

  /** Decimal rendering is undone by parsing: distinct ids give distinct strings. */
  lemma IntToStringRoundTrip(i: int)
    ensures ParseInt(IntToString(i)) == Some(i)
  {
    if i < 0 {
      var digits := NatToString(-i);
      assert IntToString(i)[1..] == digits;
      ParseNatToString(-i);
    } else {
      var digits := NatToString(i);
      assert digits[0] != '-';
      ParseNatToString(i);
    }
  }

  /** The position of the first `c` in `s`, or `|s|` when there is none. */
  function IndexOf(s: string, c: char): (k: nat)
    ensures k <= |s|
    ensures k < |s| ==> s[k] == c
    ensures forall j :: 0 <= j < k ==> s[j] != c
  {
    if s == [] then 0 else if s[0] == c then 0 else 1 + IndexOf(s[1..], c)
  }

  /** The URL of the media endpoint for a record id and a `type` value. */
  function MediaUrl(idDisplay: int, typeParam: string): string
  {
    QueryPrefix + IntToString(idDisplay) + TypeKey + typeParam
  }

  /** Reads the record id and the `type` value back out of a media URL. */
  function ParseMediaUrl(u: string): Option<MediaQuery>
  {
    if |u| < |QueryPrefix| || u[..|QueryPrefix|] != QueryPrefix then None
    else ParseQuery(u[|QueryPrefix|..])
  }

  /** Reads `<id>&type=<value>`: the id runs up to the first `&`. */
  function ParseQuery(rest: string): Option<MediaQuery>
  {
    var k := IndexOf(rest, '&');
    if k + |TypeKey| <= |rest| && rest[k..k + |TypeKey|] == TypeKey then
      match ParseInt(rest[..k])
      case None => None
      case Some(id) => Some(MediaQuery(id, rest[k + |TypeKey|..]))
    else None
  }

  lemma QueryRoundTrip(idDisplay: int, typeParam: string)
    ensures ParseQuery(IntToString(idDisplay) + TypeKey + typeParam) == Some(MediaQuery(idDisplay, typeParam))
  {
    var digits := IntToString(idDisplay);
    var rest := digits + TypeKey + typeParam;
    assert rest[|digits|] == '&';
    var k := IndexOf(rest, '&');
    assert k == |digits|;
    assert rest[..k] == digits;
    assert rest[k..k + |TypeKey|] == TypeKey;
    assert rest[k + |TypeKey|..] == typeParam;
    IntToStringRoundTrip(idDisplay);
  }

  lemma PrefixedQuery(rest: string)
    ensures ParseMediaUrl(QueryPrefix + rest) == ParseQuery(rest)
  {
    var u := QueryPrefix + rest;
    assert u[..|QueryPrefix|] == QueryPrefix;
    assert u[|QueryPrefix|..] == rest;
  }

  /** A media URL carries exactly the id and the `type` value it was built from. */
  lemma MediaUrlRoundTrip(idDisplay: int, typeParam: string)
    ensures ParseMediaUrl(MediaUrl(idDisplay, typeParam)) == Some(MediaQuery(idDisplay, typeParam))
  {
    var rest := IntToString(idDisplay) + TypeKey + typeParam;
    assert MediaUrl(idDisplay, typeParam) == QueryPrefix + rest;
    PrefixedQuery(rest);
    QueryRoundTrip(idDisplay, typeParam);
  }

  /** `classifyMedia`: jpg, jpeg and png (in any letter case) are images, mp4 is
      a video, anything else an embedded player; images and videos are fetched
      with `type=file`, the rest with `type=embed`. */
  function ClassifyMedia(media: string, idDisplay: int): (r: Classified)
    ensures r.kind == Image <==> Lower(LastSegment(media)) in {"jpg", "jpeg", "png"}
    ensures r.kind == Video <==> Lower(LastSegment(media)) == "mp4"
    ensures r.url == MediaUrl(idDisplay, if r.kind == Youtube then "embed" else "file")
  {
    var kind := KindOfExtension(Lower(LastSegment(media)));
    Classified(MediaUrl(idDisplay, TypeParam(kind)), kind)
  }

  /** The URL of a classified record names that record and asks for a file
      exactly when the kind is an image or a video. */
  lemma ClassifyMediaUrl(media: string, idDisplay: int)
    ensures ParseMediaUrl(ClassifyMedia(media, idDisplay).url)
         == Some(MediaQuery(idDisplay, TypeParam(ClassifyMedia(media, idDisplay).kind)))
    ensures TypeParam(ClassifyMedia(media, idDisplay).kind) == "file"
        <==> ClassifyMedia(media, idDisplay).kind in {Image, Video}
  {
    MediaUrlRoundTrip(idDisplay, TypeParam(ClassifyMedia(media, idDisplay).kind));
  }

  /** Classifying `stem.ext` depends only on `ext`, compared without regard to
      the case of its letters. */
  lemma ClassifyByExtension(stem: string, ext: string, idDisplay: int)
    requires '.' !in ext
    ensures ClassifyMedia(stem + "." + ext, idDisplay).kind == KindOfExtension(Lower(ext))
    ensures ClassifyMedia(stem + "." + ext, idDisplay).url
         == MediaUrl(idDisplay, TypeParam(KindOfExtension(Lower(ext))))
  {
    ExtensionAfterLastDot(stem, ext);
  }

  /** A name with no dot at all is classified by the whole name, so a bare
      `png` is an image while `photo` is an embedded player. */
  lemma ClassifyDotless(name: string, idDisplay: int)
    requires '.' !in name
    ensures ClassifyMedia(name, idDisplay).kind == KindOfExtension(Lower(name))
  {
    NoDotIsWholeName(name);
  }
}
