/**
 * The text side of one transcription pass: the segments returned by the
 * speech model are joined with single spaces, surrounding whitespace is
 * removed, and the result is pasted only when something is left
 * (dictate.py, `transcribe`).
 */
module Transcript {

  /** Python's `str.isspace` for one code point. */
  predicate IsSpace(c: char) {
    || c == ' '
    || ('\t' <= c <= '\r')
    || ('\U{1c}' <= c <= '\U{1f}')
    || c == '\U{85}' || c == '\U{a0}' || c == '\U{1680}'
    || ('\U{2000}' <= c <= '\U{200a}')
    || c == '\U{2028}' || c == '\U{2029}' || c == '\U{202f}'
    || c == '\U{205f}' || c == '\U{3000}'
  }

  predicate AllSpace(s: string) {
    forall i | 0 <= i < |s| :: IsSpace(s[i])
  }

  /** Drops leading whitespace. */
  function StripLeft(s: string): string {
    if s != [] && IsSpace(s[0]) then StripLeft(s[1..]) else s
  }

  /** Drops trailing whitespace. */
  function StripRight(s: string): string {
    if s != [] && IsSpace(s[|s| - 1]) then StripRight(s[..|s| - 1]) else s
  }

  /** Python's `s.strip()` with no argument. */
  function Strip(s: string): string {
    StripRight(StripLeft(s))
  }

  /** `StripLeft` keeps the suffix that follows a run of whitespace and starts with a visible character. */
  lemma {:induction false} StripLeftSuffix(s: string)
    ensures var r := StripLeft(s);
      && |r| <= |s| && r == s[|s| - |r|..]
      && AllSpace(s[..|s| - |r|])
      && (r == [] || !IsSpace(r[0]))
  {
    if s != [] && IsSpace(s[0]) {
      StripLeftSuffix(s[1..]);
      var r := StripLeft(s[1..]);
      assert s[1..][|s| - 1 - |r|..] == s[|s| - |r|..];
      assert s[..|s| - |r|] == [s[0]] + s[1..][..|s| - 1 - |r|];
      AllSpaceAppend([s[0]], s[1..][..|s| - 1 - |r|]);
    } else {
      assert s[..0] == [];
    }
  }

  /** `StripRight` keeps the prefix that precedes a run of whitespace and ends with a visible character. */
  lemma {:induction false} StripRightPrefix(s: string)
    ensures var r := StripRight(s);
      && |r| <= |s| && r == s[..|r|]
      && AllSpace(s[|r|..])
      && (r == [] || !IsSpace(r[|r| - 1]))
  {
    if s != [] && IsSpace(s[|s| - 1]) {
      var t := s[..|s| - 1];
      StripRightPrefix(t);
      var r := StripRight(t);
      assert t[..|r|] == s[..|r|];
      assert s[|r|..] == t[|r|..] + [s[|s| - 1]];
      AllSpaceAppend(t[|r|..], [s[|s| - 1]]);
    } else {
      assert s[|s|..] == [];
    }
  }

  /** Stripping leaves nothing exactly when the input is all whitespace;
      otherwise the result starts and ends with a visible character. */
  lemma StripBlankIff(s: string)
    ensures Strip(s) == [] <==> AllSpace(s)
    ensures Strip(s) != [] ==> !IsSpace(Strip(s)[0]) && !IsSpace(Strip(s)[|Strip(s)| - 1])
  {
    var l := StripLeft(s);
    var i := |s| - |l|;
    StripLeftSuffix(s);
    StripRightPrefix(l);
    var r := StripRight(l);
    assert Strip(s) == r;
    // s is its removed whitespace, then r, then r's removed whitespace
    assert s == s[..i] + l;
    assert l == r + l[|r|..];
    AllSpaceAppend(s[..i], l);
    AllSpaceAppend(r, l[|r|..]);
    if r != [] {
      assert r[0] == l[0];
    } else {
      assert l == l[|r|..];
    }
  }

  /** What `strip` removes is whitespace on both sides of a slice of the input. */
  lemma StripIsSlice(s: string)
    ensures |StripLeft(s)| <= |s|
    ensures |s| - |StripLeft(s)| + |Strip(s)| <= |s|
    ensures Strip(s) == s[|s| - |StripLeft(s)|..|s| - |StripLeft(s)| + |Strip(s)|]
    ensures AllSpace(s[..|s| - |StripLeft(s)|])
    ensures AllSpace(s[|s| - |StripLeft(s)| + |Strip(s)|..])
  {
    var l := StripLeft(s);
    StripLeftSuffix(s);
    var i := |s| - |l|;
    assert l == s[i..];
    var r := StripRight(l);
    StripRightPrefix(l);
    assert r == l[..|r|] && AllSpace(l[|r|..]);
    SliceOfSuffix(s, i, |r|);
  }

  lemma SliceOfSuffix(s: string, i: nat, n: nat)
    requires i + n <= |s|
    ensures s[i..][..n] == s[i..i + n]
    ensures s[i..][n..] == s[i + n..]
  {
  }

  /** Python's `" ".join(segs)`. */
  function Join(segs: seq<string>): string {
    if |segs| == 0 then ""
    else if |segs| == 1 then segs[0]
    else segs[0] + " " + Join(segs[1..])
  }

  /** The transcript text: `" ".join(segments).strip()`. */
  function Normalise(segs: seq<string>): string {
    Strip(Join(segs))
  }

  /** Whether the clipboard is written and a paste issued (`if text:`). */
  predicate ShouldPaste(segs: seq<string>) {
    Normalise(segs) != ""
  }

  /** The overlay shows at most the first 40 characters (`text[:40]`). */
  const PreviewLength: nat := 40

  function Preview(text: string): (r: string)
    ensures |r| == if |text| <= PreviewLength then |text| else PreviewLength
    ensures r <= text
  {
    if |text| <= PreviewLength then text else text[..PreviewLength]
  }

  lemma AllSpaceAppend(a: string, b: string)
    ensures AllSpace(a + b) <==> AllSpace(a) && AllSpace(b)
  {
    if AllSpace(a) && AllSpace(b) {
      forall i | 0 <= i < |a + b| ensures IsSpace((a + b)[i]) {
        if i >= |a| { assert (a + b)[i] == b[i - |a|]; }
      }
    }
    if AllSpace(a + b) {
      forall i | 0 <= i < |a| ensures IsSpace(a[i]) {
        assert (a + b)[i] == a[i];
      }
      forall i | 0 <= i < |b| ensures IsSpace(b[i]) {
        assert (a + b)[|a| + i] == b[i];
      }
    }
  }

  /** Joining with spaces adds no visible characters: the joined text is
      blank exactly when every segment is. */
  lemma {:induction false} JoinBlankIff(segs: seq<string>)
    ensures AllSpace(Join(segs)) <==> forall i | 0 <= i < |segs| :: AllSpace(segs[i])
  {
    if |segs| > 1 {
      JoinBlankIff(segs[1..]);
      AllSpaceAppend(segs[0] + " ", Join(segs[1..]));
      AllSpaceAppend(segs[0], " ");
      assert forall i | 1 <= i < |segs| :: segs[i] == segs[1..][i - 1];
    }
  }

  /** Empty or whitespace-only transcriptions are never pasted; anything
      with a visible character in some segment is. */
  lemma PasteIffVisibleSegment(segs: seq<string>)
    ensures ShouldPaste(segs) <==> exists i | 0 <= i < |segs| :: !AllSpace(segs[i])
  {
    JoinBlankIff(segs);
    StripBlankIff(Join(segs));
  }

  /** The pasted text has no surrounding whitespace: normalising it again changes nothing. */
  lemma NormaliseIdempotent(segs: seq<string>)
    ensures Strip(Normalise(segs)) == Normalise(segs)
  {
    var t := Normalise(segs);
    StripBlankIff(Join(segs));
    assert StripLeft(t) == t;
    assert StripRight(t) == t;
  }
}
