/** string_append_indent of common.c, the indentation primitive of every renderer. */
module Common {
  import opened Strings

  /**
   * The buffer after string_append_indent: "  " appended `indent` times, then
   * the suffix.
   */
  function Indented(buffer: string, suffix: string, indent: nat): string
    decreases indent
  {
    if indent == 0 then buffer + suffix else Indented(buffer + "  ", suffix, indent - 1)
  }

  /** string_append_indent: extends the caller's buffer in place. */
  method AppendIndent(buffer: string, suffix: string, indent: nat) returns (r: string)
    ensures r == Indented(buffer, suffix, indent)
  {
    r := buffer;
    for i := 0 to indent
      invariant Indented(r, suffix, indent - i) == Indented(buffer, suffix, indent)
    {
      r := r + "  ";
    }
    r := r + suffix;
  }

  /** The appends of string_append_indent add up to `2 * indent` blanks and the suffix. */
  lemma {:induction false} IndentedIsSpaces(buffer: string, suffix: string, indent: nat)
    ensures Indented(buffer, suffix, indent) == buffer + Spaces(2 * indent) + suffix
    decreases indent
  {
    if indent > 0 {
      IndentedIsSpaces(buffer + "  ", suffix, indent - 1);
      assert Spaces(2 * indent) == "  " + Spaces(2 * (indent - 1));
    } else {
      assert Spaces(0) == [];
    }
  }

  /**
   * What string_append_indent promises its callers: the old contents are
   * kept in front, exactly `2 * indent` blanks and the suffix follow, and with
   * no indentation it is a plain append.
   */
  lemma {:induction false} IndentedShape(buffer: string, suffix: string, indent: nat)
    ensures var r := Indented(buffer, suffix, indent);
      |r| == |buffer| + 2 * indent + |suffix|
      && r[..|buffer|] == buffer
      && (forall i :: |buffer| <= i < |buffer| + 2 * indent ==> r[i] == ' ')
      && r[|buffer| + 2 * indent..] == suffix
      && (indent == 0 ==> r == buffer + suffix)
  {
    IndentedIsSpaces(buffer, suffix, indent);
    var r := Indented(buffer, suffix, indent);
    assert r[..|buffer|] == buffer;
    assert r[|buffer| + 2 * indent..] == suffix;
  }

  /** What the buffer held before does not change what string_append_indent adds. */
  lemma {:induction false} IndentedAfter(front: string, buffer: string, suffix: string, indent: nat)
    ensures Indented(front + buffer, suffix, indent) == front + Indented(buffer, suffix, indent)
    decreases indent
  {
    if indent > 0 {
      assert front + buffer + "  " == front + (buffer + "  ");
      IndentedAfter(front, buffer + "  ", suffix, indent - 1);
    }
  }
}
