/**
 * escape_string of markdown.c: the content-safety pass applied to every
 * payload at construction. Backslashes are deleted, `<` and `&` become the
 * character references `&lt;` and `&amp;`, every other character stays.
 */
module Escaping {
  import opened Strings

  const LtEscape: string := "&lt;"
  const AmpEscape: string := "&amp;"

  /** What escape_string leaves in place of one character. */
  function EscapeChar(c: char): string {
    if c == '\\' then ""
    else if c == '<' then LtEscape
    else if c == '&' then AmpEscape
    else [c]
  }

  /** The escaped payload: the characters of `s` in order, each replaced by EscapeChar. */
  function Escape(s: string): string {
    if s == [] then [] else EscapeChar(s[0]) + Escape(s[1..])
  }

  lemma {:induction false} EscapeAppend(a: string, b: string)
    ensures Escape(a + b) == Escape(a) + Escape(b)
  {
    if a == [] {
      assert a + b == b;
    } else {
      assert (a + b)[1..] == a[1..] + b;
      EscapeAppend(a[1..], b);
    }
  }

  /**
   * escape_string: walks the buffer with an index, splicing each backslash
   * out and each `<` or `&` out and its reference in, stepping over what it
   * inserted. The buffer ends as Escape of what it held.
   */
  method EscapeString(s: string) returns (r: string)
    ensures r == Escape(s)
  {
    r := s;
    var index := 0;
    ghost var done := 0;
    while index < |r|
      invariant done <= |s| && index <= |r|
      invariant r == Escape(s[..done]) + s[done..] && index == |Escape(s[..done])|
      decreases |s| - done
    {
      EscapeLoopStep(s, done, r, index);
      r, index := EscapeAt(r, index);
      done := done + 1;
    }
    assert s[..done] == s;
  }

  /** The loop invariant of escape_string survives one pass. */
  lemma {:induction false} EscapeLoopStep(s: string, done: nat, r: string, index: nat)
    requires done <= |s| && index < |r|
    requires r == Escape(s[..done]) + s[done..] && index == |Escape(s[..done])|
    ensures done < |s| && r[index] == s[done]
    ensures var r' := r[..index] + EscapeChar(r[index]) + r[index + 1..];
      r' == Escape(s[..done + 1]) + s[done + 1..] && index + |EscapeChar(r[index])| == |Escape(s[..done + 1])|
  {
    assert r[index..] == s[done..];
    EscapePrefixStep(s, done);
    assert r[..index] == Escape(s[..done]);
    assert r[index + 1..] == s[done + 1..];
  }

  /** One pass of the loop of escape_string, on the character at `index`. */
  method EscapeAt(r: string, index: nat) returns (r': string, index': nat)
    requires index < |r|
    ensures r' == r[..index] + EscapeChar(r[index]) + r[index + 1..]
    ensures index' == index + |EscapeChar(r[index])|
  {
    SpliceStep(r[..index], r[index], r[index + 1..], EscapeChar(r[index]));
    assert r == r[..index] + [r[index]] + r[index + 1..];
    if r[index] == '\\' {
      r' := SpliceOut(r, index, 1);
      index' := index;
    } else if r[index] == '<' {
      r' := SpliceOut(r, index, 1);
      r' := SpliceIn(r', index, LtEscape);
      index' := index + |LtEscape|;
    } else if r[index] == '&' {
      r' := SpliceOut(r, index, 1);
      r' := SpliceIn(r', index, AmpEscape);
      index' := index + |AmpEscape|;
    } else {
      r' := r;
      index' := index + 1;
    }
  }

  lemma {:induction false} EscapePrefixStep(s: string, k: nat)
    requires k < |s|
    ensures Escape(s[..k + 1]) == Escape(s[..k]) + EscapeChar(s[k])
    ensures s[k..] == [s[k]] + s[k + 1..]
  {
    assert s[..k + 1] == s[..k] + [s[k]];
    EscapeAppend(s[..k], [s[k]]);
    assert Escape([s[k]]) == EscapeChar(s[k]) + Escape([]);
  }

  /** Splicing one character out and a replacement in at the same index. */
  lemma {:induction false} SpliceStep(pre: string, c: char, post: string, rep: string)
    ensures SpliceOut(pre + [c] + post, |pre|, 1) == pre + post
    ensures SpliceIn(pre + post, |pre|, rep) == pre + rep + post
  {
    assert (pre + [c] + post)[..|pre|] == pre;
    assert (pre + [c] + post)[|pre| + 1..] == post;
    assert (pre + post)[..|pre|] == pre;
    assert (pre + post)[|pre|..] == post;
  }

  /** Length: one less per backslash, three more per `<`, four more per `&`. */
  lemma {:induction false} EscapeLength(s: string)
    ensures |Escape(s)| == |s| - Count(s, '\\') + 3 * Count(s, '<') + 4 * Count(s, '&')
  {
    if s != [] {
      EscapeLength(s[1..]);
    }
  }

  /** No backslash and no `<` survives escaping. */
  lemma {:induction false} EscapeRemovesMeta(s: string)
    ensures '\\' !in Escape(s) && '<' !in Escape(s)
  {
    if s != [] {
      EscapeRemovesMeta(s[1..]);
      assert Escape(s) == EscapeChar(s[0]) + Escape(s[1..]);
    }
  }

  lemma {:induction false} CountZero(s: string, c: char)
    ensures Count(s, c) == 0 <==> c !in s
  {
    if s != [] {
      CountZero(s[1..], c);
      assert s == [s[0]] + s[1..];
    }
  }

  /** Escaping changes a payload exactly when it holds a backslash, a `<` or a `&`. */
  lemma {:induction false} EscapeIdentity(s: string)
    ensures Escape(s) == s <==> ('\\' !in s && '<' !in s && '&' !in s)
  {
    if '\\' !in s && '<' !in s && '&' !in s {
      PlainUnchanged(s);
    }
    if Escape(s) == s {
      EscapeRemovesMeta(s);
      EscapeLength(s);
      CountZero(s, '\\');
      CountZero(s, '<');
      CountZero(s, '&');
    }
  }

  lemma {:induction false} PlainUnchanged(s: string)
    requires '\\' !in s && '<' !in s && '&' !in s
    ensures Escape(s) == s
  {
    if s != [] {
      assert s == [s[0]] + s[1..];
      PlainUnchanged(s[1..]);
    }
  }

  /**
   * Escaping is not idempotent: escaping an escaped payload again changes it
   * exactly when the payload held a `<` or a `&`. So it must run once only.
   */
  lemma {:induction false} EscapeTwice(s: string)
    ensures Escape(Escape(s)) == Escape(s) <==> ('<' !in s && '&' !in s)
  {
    var e := Escape(s);
    EscapeRemovesMeta(s);
    EscapeIdentity(e);
    AmpIffEntity(s);
  }

  /** An escaped payload holds a `&` exactly when the original held a `<` or a `&`. */
  lemma {:induction false} AmpIffEntity(s: string)
    ensures '&' in Escape(s) <==> ('<' in s || '&' in s)
  {
    if s != [] {
      AmpIffEntity(s[1..]);
      assert Escape(s) == EscapeChar(s[0]) + Escape(s[1..]);
      assert s == [s[0]] + s[1..];
      assert LtEscape[0] == '&' && AmpEscape[0] == '&';
    }
  }

  /** The payload with every backslash deleted. */
  function WithoutBackslashes(s: string): string {
    if s == [] then []
    else if s[0] == '\\' then WithoutBackslashes(s[1..])
    else [s[0]] + WithoutBackslashes(s[1..])
  }

  /** Reads `&lt;` back as `<` and `&amp;` back as `&`; every other character stands for itself. */
  function DecodeEntities(s: string): string
    decreases |s|
  {
    if s == [] then []
    else if |s| >= 4 && s[..4] == LtEscape then "<" + DecodeEntities(s[4..])
    else if |s| >= 5 && s[..5] == AmpEscape then "&" + DecodeEntities(s[5..])
    else [s[0]] + DecodeEntities(s[1..])
  }

  /** Round trip: decoding an escaped payload gives the payload back, minus its backslashes. */
  lemma {:induction false} DecodeEscape(s: string)
    ensures DecodeEntities(Escape(s)) == WithoutBackslashes(s)
  {
    if s != [] {
      DecodeEscape(s[1..]);
      var rest := Escape(s[1..]);
      assert Escape(s) == EscapeChar(s[0]) + rest;
      if s[0] == '<' {
        DecodeLt(rest);
      } else if s[0] == '&' {
        DecodeAmp(rest);
      } else if s[0] == '\\' {
        assert Escape(s) == rest;
      } else {
        assert Escape(s) == [s[0]] + rest;
        DecodePlain(s[0], rest);
      }
    }
  }

  lemma {:induction false} DecodeLt(rest: string)
    ensures DecodeEntities(LtEscape + rest) == "<" + DecodeEntities(rest)
  {
    var e := LtEscape + rest;
    assert e[..4] == LtEscape && e[4..] == rest;
  }

  lemma {:induction false} DecodeAmp(rest: string)
    ensures DecodeEntities(AmpEscape + rest) == "&" + DecodeEntities(rest)
  {
    var e := AmpEscape + rest;
    assert e[..4][1] == 'a' != LtEscape[1];
    assert e[..5] == AmpEscape && e[5..] == rest;
  }

  lemma {:induction false} DecodePlain(c: char, rest: string)
    requires c != '&'
    ensures DecodeEntities([c] + rest) == [c] + DecodeEntities(rest)
  {
    var e := [c] + rest;
    assert |e| >= 4 ==> e[..4][0] == c != LtEscape[0];
    assert |e| >= 5 ==> e[..5][0] == c != AmpEscape[0];
    assert e[1..] == rest;
  }

  /** The worked example: `<&\a` escapes to `&lt;&amp;a`. */
  lemma {:induction false} EscapeExample()
    ensures Escape("<&\\a") == "&lt;&amp;a"
  {
    assert Escape("a") == "a";
    assert Escape("\\a") == "a";
    assert Escape("&\\a") == "&amp;a";
  }
}
