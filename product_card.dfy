/** How a product card picks its image source. */
module ProductCard {
  import opened Text

  /** `s.replace(/^\/+/, '')`. */
  function StripLeadingSlashes(s: string): (r: string)
    ensures r == [] || r[0] != '/'
    ensures |r| <= |s| && r == s[|s| - |r|..]
    ensures forall i :: 0 <= i < |s| - |r| ==> s[i] == '/'
  {
    if s != [] && s[0] == '/' then
      var r := StripLeadingSlashes(s[1..]);
      assert s[1..][|s[1..]| - |r|..] == s[|s| - |r|..];
      r
    else s
  }

  /** `imgSrc`: empty without an image; an `http` URL or a rooted path as
      given; anything else rooted with one slash. */
  function ImageSource(image: Option<string>): (src: string)
    ensures src == "" <==> !TruthyString(image)
  {
    if !TruthyString(image) then ""
    else if "http" <= image.value || "https" <= image.value then image.value
    else if "/" <= image.value then image.value
    else "/" + StripLeadingSlashes(image.value)
  }

  /** The four outcomes, with the last one simplified: a path that reaches
      it has no leading slash to strip. */
  lemma {:induction false} ImageSourceCases(image: Option<string>)
    ensures !TruthyString(image) ==> ImageSource(image) == ""
    ensures TruthyString(image) && "http" <= image.value ==> ImageSource(image) == image.value
    ensures TruthyString(image) && "/" <= image.value ==> ImageSource(image) == image.value
    ensures TruthyString(image) && !("http" <= image.value) && !("/" <= image.value) ==>
      ImageSource(image) == "/" + image.value
  {
    if TruthyString(image) && !("/" <= image.value) {
      assert image.value[0] != '/';
    }
  }

  /** The source is empty, rooted, or an `http` URL. */
  lemma {:induction false} ImageSourceShape(image: Option<string>)
    ensures var s := ImageSource(image);
      s == "" || "/" <= s || "http" <= s
  {
    ImageSourceCases(image);
    if TruthyString(image) && "https" <= image.value {
      assert image.value[..4] == "http";
    }
  }

  /** Resolving an already resolved source changes nothing. */
  lemma {:induction false} ImageSourceIdempotent(image: Option<string>)
    ensures ImageSource(Some(ImageSource(image))) == ImageSource(image)
  {
    ImageSourceShape(image);
    ImageSourceCases(Some(ImageSource(image)));
  }
}
