/** Provider-ID normalisation: the text after the last `/` of an ID, as
    `normalizedProviderString` takes it from `strings.Split(s, "/")`. */
module ProviderId {

  /** `strings.Split(s, "/")`: the pieces between separators, in order; the
      empty string yields one empty piece. */
  function Split(s: string): (parts: seq<string>)
    ensures |parts| >= 1
    ensures forall i :: 0 <= i < |parts| ==> '/' !in parts[i]
  {
    if |s| == 0 then [""]
    else if s[0] == '/' then [""] + Split(s[1..])
    else
      var rest := Split(s[1..]);
      [[s[0]] + rest[0]] + rest[1..]
  }

  /** `strings.Join(parts, "/")`. */
  function Join(parts: seq<string>): string
    requires |parts| >= 1
  {
    if |parts| == 1 then parts[0] else parts[0] + "/" + Join(parts[1..])
  }

  /** Splitting loses nothing: joining the pieces back gives the input. */
  lemma {:induction false} JoinSplit(s: string)
    ensures Join(Split(s)) == s
  {
    if |s| > 0 {
      var rest := Split(s[1..]);
      JoinSplit(s[1..]);
      if s[0] == '/' {
        assert Split(s)[1..] == rest;
      } else if |rest| > 1 {
        assert Split(s)[1..] == rest[1..];
      }
    }
  }

  /** `id` is the part of `s` after its last `/`: it holds no `/`, ends `s`,
      and is either all of `s` or preceded by a `/`. */
  ghost predicate IsLastSegment(s: string, id: string) {
    && '/' !in id
    && |id| <= |s|
    && s[|s| - |id|..] == id
    && (|id| < |s| ==> s[|s| - |id| - 1] == '/')
  }

  /** Putting a character in front keeps the last segment, unless the segment
      was the whole string and the character is not a `/`. */
  lemma ConsKeepsLastSegment(c: char, t: string, id: string)
    requires IsLastSegment(t, id)
    requires |id| < |t| || c == '/'
    ensures IsLastSegment([c] + t, id)
  {
    var s := [c] + t;
    assert s[|s| - |id|..] == t[|t| - |id|..];
    if |id| < |t| {
      assert s[|s| - |id| - 1] == t[|t| - |id| - 1];
    }
  }

  /** Two or more pieces mean the string holds a `/`. */
  lemma JoinHasSlash(parts: seq<string>)
    requires |parts| > 1
    ensures '/' in Join(parts)
  {
    assert Join(parts)[|parts[0]|] == '/';
  }

  function Last(parts: seq<string>): string
    requires |parts| >= 1
  {
    parts[|parts| - 1]
  }

  /** A leading `/` starts a new piece, so the last piece is unchanged. */
  lemma SlashHeadKeepsLast(s: string)
    requires |s| > 0 && s[0] == '/'
    requires IsLastSegment(s[1..], Last(Split(s[1..])))
    ensures IsLastSegment(s, Last(Split(s)))
  {
    var t := s[1..];
    assert s == [s[0]] + t;
    assert Split(s) == [""] + Split(t);
    assert Last(Split(s)) == Last(Split(t));
    ConsKeepsLastSegment(s[0], t, Last(Split(t)));
  }

  /** A string holding a `/` is longer than its last segment. */
  lemma SlashShortensLastSegment(t: string, id: string)
    requires IsLastSegment(t, id) && '/' in t
    ensures |id| < |t|
  {
  }

  /** A character other than `/` joins the first piece. */
  lemma SplitCharHead(s: string)
    requires |s| > 0 && s[0] != '/'
    ensures Split(s) == [[s[0]] + Split(s[1..])[0]] + Split(s[1..])[1..]
  {
  }

  /** With a `/` after the first character, the last piece lies after it. */
  lemma CharHeadManyPieces(s: string)
    requires |s| > 0 && s[0] != '/' && |Split(s[1..])| > 1
    requires IsLastSegment(s[1..], Last(Split(s[1..])))
    ensures IsLastSegment(s, Last(Split(s)))
  {
    var t := s[1..];
    var rest := Split(t);
    SplitCharHead(s);
    assert Last(Split(s)) == Last(rest);
    JoinSplit(t);
    JoinHasSlash(rest);
    SlashShortensLastSegment(t, Last(rest));
    assert s == [s[0]] + t;
    ConsKeepsLastSegment(s[0], t, Last(rest));
  }

  /** With no `/` at all, the one piece is the whole string. */
  lemma CharHeadOnePiece(s: string)
    requires |s| > 0 && s[0] != '/' && |Split(s[1..])| == 1
    ensures IsLastSegment(s, Last(Split(s)))
  {
    var t := s[1..];
    var rest := Split(t);
    SplitCharHead(s);
    JoinSplit(t);
    assert rest[0] == t && rest[1..] == [];
    assert s == [s[0]] + t;
    assert Split(s) == [s];
    assert s[0..] == s;
  }

  /** The last piece of the split is the last segment. */
  lemma {:induction false} SplitLastIsLastSegment(s: string)
    ensures IsLastSegment(s, Last(Split(s)))
  {
    if |s| > 0 {
      SplitLastIsLastSegment(s[1..]);
      if s[0] == '/' {
        SlashHeadKeepsLast(s);
      } else if |Split(s[1..])| > 1 {
        CharHeadManyPieces(s);
      } else {
        CharHeadOnePiece(s);
      }
    }
  }

  /** A string has exactly one last segment. */
  lemma LastSegmentUnique(s: string, a: string, b: string)
    requires IsLastSegment(s, a) && IsLastSegment(s, b)
    ensures a == b
  {
  }

  /** `normalizedProviderString`: the last element of the split. */
  function NormalizedProviderString(s: string): (id: string)
    ensures IsLastSegment(s, id)
  {
    SplitLastIsLastSegment(s);
    Last(Split(s))
  }

  /** Whatever precedes the final `/` is dropped. */
  lemma {:induction false} NormalizeAfterLastSlash(prefix: string, id: string)
    requires '/' !in id
    ensures NormalizedProviderString(prefix + "/" + id) == id
  {
    var s := prefix + "/" + id;
    assert s[|s| - |id|..] == id;
    assert s[|s| - |id| - 1] == '/';
    LastSegmentUnique(s, id, NormalizedProviderString(s));
  }

  /** An ID without `/` is already normal. */
  lemma {:induction false} NormalizeNoSlash(s: string)
    requires '/' !in s
    ensures NormalizedProviderString(s) == s
  {
    assert s[0..] == s;
    LastSegmentUnique(s, s, NormalizedProviderString(s));
  }

  /** The empty ID and an ID ending in `/` normalise to "". */
  lemma {:induction false} NormalizeTrailingSlash(s: string)
    requires s == "" || s[|s| - 1] == '/'
    ensures NormalizedProviderString(s) == ""
  {
  }

  /** Normalising twice is normalising once. */
  lemma {:induction false} NormalizeIdempotent(s: string)
    ensures NormalizedProviderString(NormalizedProviderString(s)) == NormalizedProviderString(s)
  {
    NormalizeNoSlash(NormalizedProviderString(s));
  }

  /** Three sample IDs: a fully qualified AWS ID, a bare ID and the empty ID. */
  lemma NormalizeExamples()
    ensures NormalizedProviderString("aws:///us-east-1a/i-1234") == "i-1234"
    ensures NormalizedProviderString("i-1234") == "i-1234"
    ensures NormalizedProviderString("") == ""
  {
    assert "aws:///us-east-1a/i-1234" == "aws:///us-east-1a" + "/" + "i-1234";
    NormalizeAfterLastSlash("aws:///us-east-1a", "i-1234");
    NormalizeNoSlash("i-1234");
    NormalizeTrailingSlash("");
  }
}
