/**
 * The input validators and sanitisers of `validation`
 * (src/lib/utils/validation.ts). The two regular expressions and the two
 * `replace` calls are given as recursive functions, and each is tied to a
 * declarative statement of what the pattern matches. Numbers are exact
 * reals and string lengths count characters.
 */
module Validation {
  import opened JsString

  /** `isValidLat` */
  predicate IsValidLat(lat: real) {
    -90.0 <= lat <= 90.0
  }

  /** `isValidLng` */
  predicate IsValidLng(lng: real) {
    -180.0 <= lng <= 180.0
  }

  /** `isValidCoords`: both coordinates within their closed ranges. */
  function IsValidCoords(lat: real, lng: real): (r: bool)
    ensures r <==> -90.0 <= lat <= 90.0 && -180.0 <= lng <= 180.0
  {
    IsValidLat(lat) && IsValidLng(lng)
  }

  /**
   * `isValidPinName`: 3 to 255 characters once trimmed (`TrimSpec` says
   * what is left after trimming).
   */
  function IsValidPinName(name: string): (r: bool)
    ensures r <==> 3 <= |Trim(name)| <= 255
    ensures r ==> |name| >= 3 && exists k :: 0 <= k < |name| && !IsSpace(name[k])
    ensures (forall k :: 0 <= k < |name| ==> !IsSpace(name[k])) ==> (r <==> 3 <= |name| <= 255)
  {
    TrimEmpty(name);
    TrimBounds(name);
    3 <= |Trim(name)| <= 255
  }

  /** `isValidDescription`: at most 1000 characters, whitespace included. */
  function IsValidDescription(description: string): (r: bool)
    ensures r <==> |description| <= 1000
  {
    |description| <= 1000
  }

  /** `isValidComment`: 1 to 500 characters once trimmed. */
  function IsValidComment(comment: string): (r: bool)
    ensures r <==> 1 <= |Trim(comment)| <= 500
    ensures r <==> (exists k :: 0 <= k < |comment| && !IsSpace(comment[k])) && |Trim(comment)| <= 500
    ensures (forall k :: 0 <= k < |comment| ==> !IsSpace(comment[k])) ==> (r <==> 1 <= |comment| <= 500)
  {
    TrimEmpty(comment);
    TrimBounds(comment);
    1 <= |Trim(comment)| <= 500
  }

  /** Trimming twice trims nothing more. */
  lemma TrimIdempotent(s: string)
    ensures Trim(Trim(s)) == Trim(s)
  {
    var u := TrimStart(s);
    var t := TrimEnd(u);
    TrimStartSpec(s);
    TrimEndSpec(u);
    if t != [] {
      assert t[0] == u[0];
      TrimEndSpec(t);
    }
  }

  /** Pin names and comments are judged after trimming: a trimmed input is judged alike. */
  lemma TrimmedInputJudgedAlike(s: string)
    ensures IsValidPinName(Trim(s)) == IsValidPinName(s)
    ensures IsValidComment(Trim(s)) == IsValidComment(s)
  {
    TrimIdempotent(s);
  }

  /** `[^\s@]`: neither whitespace nor `@`. */
  predicate Plain(c: char) {
    !IsSpace(c) && c != '@'
  }

  predicate AllPlain(s: string) {
    forall k :: 0 <= k < |s| ==> Plain(s[k])
  }

  /** The position of the first `c` in `s`. */
  function FirstIndex(s: string, c: char): (r: nat)
    requires c in s
    ensures r < |s| && s[r] == c && c !in s[..r]
  {
    if s[0] == c then 0
    else
      var i := FirstIndex(s[1..], c);
      assert s[..i + 1] == [s[0]] + s[1..][..i];
      i + 1
  }

  /** `s` splits at an `@` at `i` and a `.` at `j` into three non-empty plain runs. */
  predicate EmailSplit(s: string, i: int, j: int) {
    0 < i && i + 1 < j && j + 1 < |s| && s[i] == '@' && s[j] == '.'
    && AllPlain(s[..i]) && AllPlain(s[i + 1..j]) && AllPlain(s[j + 1..])
  }

  /** What `/^[^\s@]+@[^\s@]+\.[^\s@]+$/` matches: local part, `@`, then two runs split by a `.`. */
  ghost predicate EmailPattern(s: string) {
    exists i, j :: EmailSplit(s, i, j)
  }

  /** `isValidEmail`: one `@` after a non-empty local part, no whitespace, and a `.` with text on both sides in the domain. */
  function IsValidEmail(s: string): (r: bool)
    ensures r <==> EmailPattern(s)
  {
    if '@' !in s then false
    else
      var at := FirstIndex(s, '@');
      var ok := 0 < at && at + 4 <= |s| && AllPlain(s[..at]) && AllPlain(s[at + 1..]) && '.' in s[at + 2..|s| - 1];
      if ok then EmailShapeMatches(s, at); true
      else EmailPatternShape(s, at); false
  }

  /** A string of the checked shape matches the pattern: the `.` found in the domain splits it. */
  lemma EmailShapeMatches(s: string, at: nat)
    requires at < |s| && s[at] == '@'
    requires 0 < at && at + 4 <= |s| && AllPlain(s[..at]) && AllPlain(s[at + 1..]) && '.' in s[at + 2..|s| - 1]
    ensures EmailPattern(s)
  {
    var d := s[at + 2..|s| - 1];
    var k :| 0 <= k < |d| && d[k] == '.';
    var j := at + 2 + k;
    assert s[at + 1..j] == s[at + 1..][..k + 1];
    assert s[j + 1..] == s[at + 1..][k + 2..];
    assert EmailSplit(s, at, j);
  }

  /** A match has its `@` at the first `@`, and the pieces around it have the checked shape. */
  lemma EmailPatternShape(s: string, at: nat)
    requires at < |s| && s[at] == '@' && '@' !in s[..at]
    ensures EmailPattern(s) ==>
      0 < at && at + 4 <= |s| && AllPlain(s[..at]) && AllPlain(s[at + 1..]) && '.' in s[at + 2..|s| - 1]
  {
    if EmailPattern(s) {
      var i, j :| EmailSplit(s, i, j);
      FirstAt(s, at, i);
      DomainPlain(s, i, j);
      assert s[at + 2..|s| - 1][j - at - 2] == '.';
    }
  }

  /** Only one `@` can be followed by a plain local part and preceded by none. */
  lemma FirstAt(s: string, at: nat, i: nat)
    requires at < |s| && s[at] == '@' && '@' !in s[..at]
    requires i < |s| && s[i] == '@' && AllPlain(s[..i])
    ensures i == at
  {
  }

  /** The domain of a match, the `.` included, is plain. */
  lemma DomainPlain(s: string, i: int, j: int)
    requires EmailSplit(s, i, j)
    ensures AllPlain(s[i + 1..])
  {
    var a, b := s[i + 1..j], s[j + 1..];
    assert s[i + 1..] == a + [s[j]] + b;
    var t := a + [s[j]] + b;
    assert forall k :: 0 <= k < |t| ==> t[k] == if k < |a| then a[k] else if k == |a| then s[j] else b[k - |a| - 1];
  }

  predicate IsHex(c: char) {
    ('0' <= c <= '9') || ('a' <= c <= 'f') || ('A' <= c <= 'F')
  }

  /** The positions of the four dashes of a UUID. */
  predicate DashAt(k: int) {
    k == 8 || k == 13 || k == 18 || k == 23
  }

  /** What `/^[0-9a-f]{8}-[0-9a-f]{4}-[0-9a-f]{4}-[0-9a-f]{4}-[0-9a-f]{12}$/i` matches. */
  ghost predicate UuidPattern(s: string) {
    |s| == 36 && forall k :: 0 <= k < 36 ==> if DashAt(k) then s[k] == '-' else IsHex(s[k])
  }

  /** Every character of `s` from `from` up to `to` (excluded) is a hex digit, except the dashes. */
  predicate UuidFrom(s: string, from: nat)
    requires |s| == 36 && from <= 36
    decreases 36 - from
  {
    from == 36 || ((if DashAt(from) then s[from] == '-' else IsHex(s[from])) && UuidFrom(s, from + 1))
  }

  lemma {:induction false} UuidFromSpec(s: string, from: nat)
    requires |s| == 36 && from <= 36
    ensures UuidFrom(s, from) <==> forall k :: from <= k < 36 ==> if DashAt(k) then s[k] == '-' else IsHex(s[k])
    decreases 36 - from
  {
    if from < 36 {
      UuidFromSpec(s, from + 1);
    }
  }

  /** `isValidUUID`: 36 characters, dashes at 8, 13, 18 and 23, hex digits of either case elsewhere. */
  function IsValidUUID(s: string): (r: bool)
    ensures r <==> UuidPattern(s)
  {
    if |s| != 36 then false
    else
      UuidFromSpec(s, 0);
      UuidFrom(s, 0)
  }

  /** The `i` flag: a UUID is valid exactly when its lower-case form is. */
  lemma UuidCaseInsensitive(s: string)
    ensures IsValidUUID(Lower(s)) == IsValidUUID(s)
  {
    if |s| == 36 {
      forall k | 0 <= k < 36
        ensures (if DashAt(k) then Lower(s)[k] == '-' else IsHex(Lower(s)[k]))
            <==> (if DashAt(k) then s[k] == '-' else IsHex(s[k]))
      {
      }
    }
  }

  const ImageTypes: seq<string> := ["image/jpeg", "image/jpg", "image/png", "image/webp"]

  /** `isValidImageType`: one of the four listed MIME types. */
  function IsValidImageType(mime: string): (r: bool)
    ensures r <==> mime == "image/jpeg" || mime == "image/jpg" || mime == "image/png" || mime == "image/webp"
  {
    mime in ImageTypes
  }

  const DefaultMaxMB: real := 10.0

  /** `isValidImageSize(file, maxMB)`: at most `maxMB` mebibytes. */
  function IsValidImageSize(size: nat, maxMB: real): (r: bool)
    ensures r ==> maxMB >= 0.0
    ensures maxMB == DefaultMaxMB ==> (r <==> size <= 10485760)
  {
    size as real <= maxMB * 1024.0 * 1024.0
  }

  /** A larger allowance accepts every file a smaller one accepts. */
  lemma ImageSizeMonotone(size: nat, small: real, large: real)
    requires small <= large
    ensures IsValidImageSize(size, small) ==> IsValidImageSize(size, large)
  {
  }

  /** `isValidRating`: `Number.isInteger` and within 1 to 5, that is, one of 1, 2, 3, 4, 5. */
  function IsValidRating(rating: real): (r: bool)
    ensures r <==> rating == 1.0 || rating == 2.0 || rating == 3.0 || rating == 4.0 || rating == 5.0
  {
    var whole := rating.Floor as real == rating;
    assert 1.0 <= rating <= 5.0 && whole ==> 1 <= rating.Floor <= 5;
    1.0 <= rating <= 5.0 && whole
  }

  predicate NotAngle(c: char) {
    c != '<' && c != '>'
  }

  /** `.replace(/[<>]/g, '')` */
  function RemoveAngles(s: string): (r: string)
    ensures '<' !in r && '>' !in r
    ensures forall c :: c in r <==> c in s && NotAngle(c)
    ensures forall c :: multiset(r)[c] == if NotAngle(c) then multiset(s)[c] else 0
    ensures IsSubsequence(r, s)
  {
    FilterIsSubsequence(s, NotAngle);
    FilterCount(s, NotAngle);
    Filter(s, NotAngle)
  }

  /** `sanitizeString`: trim, then delete every `<` and `>`. */
  function SanitizeString(s: string): (r: string)
    ensures '<' !in r && '>' !in r
    ensures forall c :: c in r <==> c in Trim(s) && NotAngle(c)
    ensures forall c :: multiset(r)[c] == if NotAngle(c) then multiset(Trim(s))[c] else 0
    ensures IsSubsequence(r, Trim(s))
  {
    RemoveAngles(Trim(s))
  }

  /** Angles are deleted after trimming, so the result can still end in a space. */
  lemma SanitizeStringLeavesSpace()
    ensures SanitizeString("a <") == "a "
  {
    assert Trim("a <") == "a <";
    var p := NotAngle;
    assert "a <"[1..] == " <" && " <"[1..] == "<" && "<"[1..] == [];
    assert Filter("<", p) == [];
    assert Filter(" <", p) == " ";
    assert Filter("a <", p) == "a ";
  }

  /**
   * `.replace(/<[^>]*>/g, '')`: scanning from the left, a `<` with a `>`
   * somewhere after it starts a tag that ends at the first such `>`; the
   * whole tag is deleted. A `<` with no `>` after it stays.
   */
  function StripTags(s: string): (r: string)
    ensures |r| <= |s|
    ensures forall c :: c in r ==> c in s
    decreases |s|
  {
    if s == [] then []
    else if s[0] == '<' && '>' in s[1..] then
      var close := FirstIndex(s[1..], '>') + 1;
      var rest := StripTags(s[close + 1..]);
      assert forall c :: c in rest ==> c in s by {
        forall c | c in rest ensures c in s {
          var k :| 0 <= k < |s[close + 1..]| && s[close + 1..][k] == c;
          assert s[close + 1 + k] == c;
        }
      }
      rest
    else [s[0]] + StripTags(s[1..])
  }

  /** No `<` is followed, anywhere later, by a `>`. */
  predicate TagFree(s: string)
    decreases |s|
  {
    s == [] || ((s[0] == '<' ==> '>' !in s[1..]) && TagFree(s[1..]))
  }

  lemma {:induction false} TagFreeMeaning(s: string)
    ensures TagFree(s) <==> forall i, j :: 0 <= i < j < |s| && s[i] == '<' ==> s[j] != '>'
    decreases |s|
  {
    if s != [] {
      TagFreeMeaning(s[1..]);
      assert forall i :: 0 < i < |s| ==> s[i] == s[1..][i - 1];
      if !TagFree(s) && s[0] == '<' && '>' in s[1..] {
        var k :| 0 <= k < |s[1..]| && s[1..][k] == '>';
        assert s[k + 1] == '>';
      }
    }
  }

  /** `sanitizeHTML`: delete every tag. */
  function SanitizeHTML(dirty: string): (r: string)
    ensures TagFree(r)
    ensures |r| <= |dirty|
    ensures '<' !in dirty ==> r == dirty
  {
    StripTagsLeavesNoTag(dirty);
    StripTagsPlain(dirty);
    StripTags(dirty)
  }

  /** Text before the first `<` is kept as it is. */
  lemma {:induction false} StripTagsPlainPrefix(a: string, b: string)
    requires '<' !in a
    ensures StripTags(a + b) == a + StripTags(b)
    decreases |a|
  {
    if a != [] {
      assert (a + b)[0] == a[0] && (a + b)[1..] == a[1..] + b;
      StripTagsPlainPrefix(a[1..], b);
    } else {
      assert a + b == b;
    }
  }

  lemma StripTagsPlain(s: string)
    ensures '<' !in s ==> StripTags(s) == s
  {
    if '<' !in s {
      StripTagsPlainPrefix(s, []);
      assert s + [] == s;
    }
  }

  /**
   * A tag `<t>` (with no `>` inside it) is deleted, the text before it is
   * kept, and the text after it is sanitised in turn.
   */
  lemma StripTagsSpan(a: string, t: string, b: string)
    requires '<' !in a && '>' !in t
    ensures StripTags(a + "<" + t + ">" + b) == a + StripTags(b)
  {
    var tag := "<" + t + ">" + b;
    assert a + "<" + t + ">" + b == a + tag;
    StripTagsPlainPrefix(a, tag);
    assert tag[1..] == t + ">" + b;
    assert tag[1..][|t|] == '>';
    assert tag[1..][..|t|] == t;
    var close := FirstIndex(tag[1..], '>');
    assert close == |t|;
    assert tag[close + 2..] == b;
  }

  lemma {:induction false} StripTagsLeavesNoTag(s: string)
    ensures TagFree(StripTags(s))
    decreases |s|
  {
    if s == [] {
    } else if s[0] == '<' && '>' in s[1..] {
      var close := FirstIndex(s[1..], '>') + 1;
      StripTagsLeavesNoTag(s[close + 1..]);
    } else {
      StripTagsLeavesNoTag(s[1..]);
      var r := StripTags(s);
      assert r[1..] == StripTags(s[1..]);
    }
  }

  /** Text without a tag passes unchanged. */
  lemma {:induction false} StripTagsKeepsTagFree(s: string)
    requires TagFree(s)
    ensures StripTags(s) == s
    decreases |s|
  {
    if s != [] {
      StripTagsKeepsTagFree(s[1..]);
    }
  }

  /** Sanitising twice is sanitising once. */
  lemma SanitizeHTMLIdempotent(dirty: string)
    ensures SanitizeHTML(SanitizeHTML(dirty)) == SanitizeHTML(dirty)
  {
    StripTagsKeepsTagFree(SanitizeHTML(dirty));
  }

  /** A `<` with no `>` after it survives, and a complete tag goes. */
  lemma SanitizeHTMLExamples()
    ensures SanitizeHTML("a<b>c") == "ac"
    ensures SanitizeHTML("x < 3") == "x < 3"
  {
    assert FirstIndex("b>c", '>') == 1;
    assert "a<b>c"[1..][1..] == "b>c";
    assert StripTags("a<b>c") == "a" + StripTags("<b>c");
    assert "<b>c"[1..] == "b>c";
    assert StripTags("<b>c") == StripTags("c");
    assert TagFree("x < 3") by {
      assert "x < 3"[1..][1..][1..] == " 3";
    }
    StripTagsKeepsTagFree("x < 3");
  }
}
