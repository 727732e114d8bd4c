/** `strings.Split(s, " ")` and its inverse, `strings.Join(parts, " ")`. */
module Strings {

  /** Cuts `s` at every single space: n spaces give n + 1 parts, and the
      empty string gives one empty part. */
  function Split(s: string): (parts: seq<string>)
    ensures |parts| >= 1
    decreases |s|
  {
    if s == [] then [[]]
    else
      var rest := Split(s[1..]);
      if s[0] == ' ' then [[]] + rest
      else [[s[0]] + rest[0]] + rest[1..]
  }

  function Join(parts: seq<string>): string
    requires |parts| >= 1
  {
    if |parts| == 1 then parts[0] else parts[0] + " " + Join(parts[1..])
  }

  predicate SpaceFree(s: string)
  {
    forall i :: 0 <= i < |s| ==> s[i] != ' '
  }

  /** Splitting loses nothing but the separators. */
  lemma {:induction false} JoinSplit(s: string)
    ensures Join(Split(s)) == s
    ensures forall k :: 0 <= k < |Split(s)| ==> SpaceFree(Split(s)[k])
    decreases |s|
  {
    if s != [] {
      var rest := Split(s[1..]);
      JoinSplit(s[1..]);
      if s[0] == ' ' {
        assert Split(s)[1..] == rest;
      } else {
        var parts := Split(s);
        assert parts[0] == [s[0]] + rest[0];
        if |rest| == 1 {
          assert Join(parts) == parts[0];
        } else {
          assert parts[1..] == rest[1..];
          assert Join(parts) == parts[0] + " " + Join(rest[1..]);
        }
        forall k | 0 <= k < |parts|
          ensures SpaceFree(parts[k])
        {
          if k > 0 {
            assert parts[k] == rest[k];
          }
        }
      }
    }
  }

  /** A space-free string is one part. */
  lemma {:induction false} SplitSpaceFree(s: string)
    requires SpaceFree(s)
    ensures Split(s) == [s]
    decreases |s|
  {
    if s != [] {
      SplitSpaceFree(s[1..]);
      assert [s[0]] + s[1..] == s;
    }
  }

  /** A space-free prefix followed by one space is split off as the first
      part. */
  lemma {:induction false} SplitAfterPart(p: string, rest: string)
    requires SpaceFree(p)
    ensures Split(p + " " + rest) == [p] + Split(rest)
    decreases |p|
  {
    if p == [] {
      assert p + " " + rest == [' '] + rest;
      assert (p + " " + rest)[1..] == rest;
    } else {
      var s := p + " " + rest;
      assert s[0] == p[0];
      assert s[1..] == p[1..] + " " + rest;
      SplitAfterPart(p[1..], rest);
      assert [p[0]] + p[1..] == p;
    }
  }

  /** The split of a header is `["Bearer", t]` exactly when the header is
      `"Bearer "` followed by a token `t` without spaces. */
  lemma BearerSplit(h: string)
    ensures (|Split(h)| == 2 && Split(h)[0] == "Bearer") <==>
            (|h| >= 7 && h[..7] == "Bearer " && SpaceFree(h[7..]))
    ensures |Split(h)| == 2 && Split(h)[0] == "Bearer" ==> Split(h)[1] == h[7..]
  {
    var parts := Split(h);
    JoinSplit(h);
    if |parts| == 2 && parts[0] == "Bearer" {
      assert Join(parts) == "Bearer" + " " + Join(parts[1..]);
      assert h == "Bearer " + parts[1];
      assert SpaceFree(parts[1]);
    }
    if |h| >= 7 && h[..7] == "Bearer " && SpaceFree(h[7..]) {
      assert h == "Bearer" + " " + h[7..];
      SplitAfterPart("Bearer", h[7..]);
      SplitSpaceFree(h[7..]);
    }
  }
}
