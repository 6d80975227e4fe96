/** The textual commands: the client's printer, the server's parser, and Go's strings.Split. */
module Commands {
  import opened RaftTypes

  const OP_SEPARATOR := ":::"
  const KEY_VALUE_SEPARATOR := "<<>>"
  const PUT := "Put"
  const APPEND := "Append"
  const GET := "Get"

  predicate At(s: string, sep: string, i: int) {
    0 <= i <= i + |sep| <= |s| && s[i..i + |sep|] == sep
  }

  ghost predicate Contains(s: string, sep: string) {
    exists i :: At(s, sep, i)
  }

  /** The first occurrence of sep in s. */
  function Find(s: string, sep: string): (r: Option<nat>)
    ensures r.Some? ==> At(s, sep, r.value) && forall j :: j < r.value ==> !At(s, sep, j)
    ensures r.None? ==> !Contains(s, sep)
  {
    if sep <= s then
      assert s[0..|sep|] == sep;
      Some(0)
    else if s == "" then None
    else
      var r := Find(s[1..], sep);
      ShiftedOccurrences(s, sep);
      if r.None? then None else Some(r.value + 1)
  }

  lemma SliceOfTail(s: string, i: int, j: int)
    requires 1 <= i <= j <= |s|
    ensures s[i..j] == s[1..][i - 1..j - 1]
  {
    assert forall k :: 0 <= k < j - i ==> s[i..j][k] == s[1..][i - 1..j - 1][k];
  }

  lemma ShiftedOccurrences(s: string, sep: string)
    requires s != "" && !(sep <= s)
    ensures forall i :: At(s, sep, i) <==> At(s[1..], sep, i - 1)
  {
    assert |sep| <= |s| ==> s[0..|sep|] == s[..|sep|];
    forall i
      ensures At(s, sep, i) <==> At(s[1..], sep, i - 1)
    {
      if 0 < i && i + |sep| <= |s| {
        SliceOfTail(s, i, i + |sep|);
      }
    }
  }

  /** strings.Split for a non-empty separator. */
  function Split(s: string, sep: string): (r: seq<string>)
    requires sep != ""
    ensures r != []
    decreases |s|
  {
    match Find(s, sep)
    case None => [s]
    case Some(k) => [s[..k]] + Split(s[k + |sep|..], sep)
  }

  function Join(parts: seq<string>, sep: string): string
    requires parts != []
  {
    if |parts| == 1 then parts[0] else parts[0] + sep + Join(parts[1..], sep)
  }

  /** Splitting loses nothing, and no part contains the separator. */
  lemma {:induction false} SplitThenJoin(s: string, sep: string)
    requires sep != ""
    ensures Join(Split(s, sep), sep) == s
    ensures forall i :: 0 <= i < |Split(s, sep)| ==> !Contains(Split(s, sep)[i], sep)
    decreases |s|
  {
    var r := Find(s, sep);
    if r.Some? {
      var k := r.value;
      SplitThenJoin(s[k + |sep|..], sep);
      assert Split(s, sep)[1..] == Split(s[k + |sep|..], sep);
      assert s == s[..k] + s[k..k + |sep|] + s[k + |sep|..];
      forall i
        ensures !At(s[..k], sep, i)
      {
        if 0 <= i && i + |sep| <= k {
          assert s[..k][i..i + |sep|] == s[i..i + |sep|];
          assert !At(s, sep, i);
        }
      }
    }
  }

  // ---------------------------------------------------------------- the server's parsers

  function ParseCmd(cmd: string): (string, string) {
    var s := Split(cmd, OP_SEPARATOR);
    if |s| < 2 then ("", "") else (s[0], s[1])
  }

  function SplitPutAppendCmd(putappend: string): (string, string) {
    var s := Split(putappend, KEY_VALUE_SEPARATOR);
    if |s| < 2 then ("", "") else (s[0], s[1])
  }

  /** Text without the separator yields nothing. */
  lemma UnseparatedYieldsNothing(s: string)
    ensures !Contains(s, OP_SEPARATOR) ==> ParseCmd(s) == ("", "")
    ensures !Contains(s, KEY_VALUE_SEPARATOR) ==> SplitPutAppendCmd(s) == ("", "")
  {
  }

  // ---------------------------------------------------------------- the client's printer

  function PutAppendCmd(op: string, key: string, value: string): string {
    op + OP_SEPARATOR + key + KEY_VALUE_SEPARATOR + value
  }

  function GetCmd(key: string): string {
    GET + OP_SEPARATOR + key
  }

  /** The text on the wire. */
  lemma CommandText(key: string, value: string)
    ensures PutAppendCmd(PUT, key, value) == "Put:::" + key + "<<>>" + value
    ensures PutAppendCmd(APPEND, key, value) == "Append:::" + key + "<<>>" + value
    ensures GetCmd(key) == "Get:::" + key
  {
    assert "Put" + ":::" == "Put:::" && "Append" + ":::" == "Append:::" && "Get" + ":::" == "Get:::";
  }

  /** What the server recovers from a Put or Append command. */
  function Recovered(cmd: string): (string, string, string) {
    var (op, rest) := ParseCmd(cmd);
    var (key, value) := SplitPutAppendCmd(rest);
    (op, key, value)
  }

  // ---------------------------------------------------------------- where separators can start

  /** s up to its first separator, or all of s. */
  function Head(s: string, sep: string): (r: string)
    requires sep != ""
    ensures r <= s
    ensures r == s <==> !Contains(s, sep)
  {
    match Find(s, sep)
    case None => s
    case Some(k) => s[..k]
  }

  /** When the first occurrence is the one after a, the first two parts are a and b's head. */
  lemma SplitAfter(a: string, sep: string, b: string)
    requires sep != "" && forall i :: i < |a| ==> !At(a + sep + b, sep, i)
    ensures |Split(a + sep + b, sep)| >= 2
    ensures Split(a + sep + b, sep)[0] == a && Split(a + sep + b, sep)[1] == Head(b, sep)
  {
    var s := a + sep + b;
    assert s[|a|..|a| + |sep|] == sep;
    assert At(s, sep, |a|);
    assert s[..|a|] == a && s[|a| + |sep|..] == b;
  }

  lemma OccurrenceInFront(a: string, rest: string, sep: string, i: int)
    requires i + |sep| <= |a|
    ensures At(a + rest, sep, i) <==> At(a, sep, i)
  {
    if 0 <= i {
      assert (a + rest)[i..i + |sep|] == a[i..i + |sep|];
    }
  }

  /** "<<>>" does not overlap itself, so it cannot start inside text that does not contain it. */
  lemma KeyValueSeparatorStartsAfter(a: string, b: string, i: int)
    requires !Contains(a, KEY_VALUE_SEPARATOR) && i < |a|
    ensures !At(a + KEY_VALUE_SEPARATOR + b, KEY_VALUE_SEPARATOR, i)
  {
    var s := a + KEY_VALUE_SEPARATOR + b;
    assert s == a + (KEY_VALUE_SEPARATOR + b);
    if i + 4 <= |a| {
      OccurrenceInFront(a, KEY_VALUE_SEPARATOR + b, KEY_VALUE_SEPARATOR, i);
    } else if 0 <= i {
      var j := if i + 3 == |a| then 3 else 2;
      assert s[i..i + 4][j] == s[i + j] == KEY_VALUE_SEPARATOR[i + j - |a|] == '<';
    }
  }

  predicate IsOp(op: string) {
    op == PUT || op == APPEND || op == GET
  }

  /** ":::" cannot start inside an operation's name. */
  lemma OpSeparatorStartsAfterOp(op: string, rest: string, i: int)
    requires IsOp(op) && i < |op|
    ensures !At(op + OP_SEPARATOR + rest, OP_SEPARATOR, i)
  {
    var s := op + OP_SEPARATOR + rest;
    if 0 <= i {
      assert s[i..i + 3][0] == s[i] == op[i];
    }
  }

  /** The parser finds the operation, and the text up to the next ":::". */
  lemma ParseFindsOp(op: string, rest: string)
    requires IsOp(op)
    ensures ParseCmd(op + OP_SEPARATOR + rest) == (op, Head(rest, OP_SEPARATOR))
  {
    forall i | i < |op|
      ensures !At(op + OP_SEPARATOR + rest, OP_SEPARATOR, i)
    {
      OpSeparatorStartsAfterOp(op, rest, i);
    }
    SplitAfter(op, OP_SEPARATOR, rest);
  }

  lemma NoOpSeparatorAcross(key: string, value: string, i: int)
    requires |key| < i + 3 && i < |key| + 4
    ensures !At(key + KEY_VALUE_SEPARATOR + value, OP_SEPARATOR, i)
  {
    var r := key + KEY_VALUE_SEPARATOR + value;
    if 0 <= i && i + 3 <= |r| {
      var j := if i <= |key| then |key| else i;
      assert r[i..i + 3][j - i] == r[j] == KEY_VALUE_SEPARATOR[j - |key|];
    }
  }

  /** ":::" occurs in key<<>>value exactly when it occurs in the key or in the value. */
  lemma OpSeparatorStaysInside(key: string, value: string)
    ensures Contains(key + KEY_VALUE_SEPARATOR + value, OP_SEPARATOR)
            <==> Contains(key, OP_SEPARATOR) || Contains(value, OP_SEPARATOR)
  {
    var r := key + KEY_VALUE_SEPARATOR + value;
    var off := |key| + 4;
    assert r == key + (KEY_VALUE_SEPARATOR + value);
    forall i | At(r, OP_SEPARATOR, i)
      ensures At(key, OP_SEPARATOR, i) || At(value, OP_SEPARATOR, i - off)
    {
      if i + 3 <= |key| {
        OccurrenceInFront(key, KEY_VALUE_SEPARATOR + value, OP_SEPARATOR, i);
      } else if i >= off {
        assert r[i..i + 3] == value[i - off..i - off + 3];
      } else {
        NoOpSeparatorAcross(key, value, i);
      }
    }
    forall i | At(key, OP_SEPARATOR, i)
      ensures At(r, OP_SEPARATOR, i)
    {
      OccurrenceInFront(key, KEY_VALUE_SEPARATOR + value, OP_SEPARATOR, i);
    }
    forall i | At(value, OP_SEPARATOR, i)
      ensures At(r, OP_SEPARATOR, i + off)
    {
      assert r[i + off..i + off + 3] == value[i..i + 3];
    }
  }

  // ---------------------------------------------------------------- the round trip

  /** Splitting at "<<>>" recovers key and value exactly when neither contains it. */
  lemma KeyValueRoundTrip(key: string, value: string)
    ensures SplitPutAppendCmd(key + KEY_VALUE_SEPARATOR + value) == (key, value)
            <==> !Contains(key, KEY_VALUE_SEPARATOR) && !Contains(value, KEY_VALUE_SEPARATOR)
  {
    var r := key + KEY_VALUE_SEPARATOR + value;
    if Contains(key, KEY_VALUE_SEPARATOR) {
      var i :| At(key, KEY_VALUE_SEPARATOR, i);
      assert r == key + (KEY_VALUE_SEPARATOR + value);
      OccurrenceInFront(key, KEY_VALUE_SEPARATOR + value, KEY_VALUE_SEPARATOR, i);
      assert Split(r, KEY_VALUE_SEPARATOR)[0] != key;
    } else {
      forall i | i < |key|
        ensures !At(r, KEY_VALUE_SEPARATOR, i)
      {
        KeyValueSeparatorStartsAfter(key, value, i);
      }
      SplitAfter(key, KEY_VALUE_SEPARATOR, value);
    }
  }

  /** The two parts and their separator fit into what was split. */
  lemma PartsFit(s: string, key: string, value: string)
    requires SplitPutAppendCmd(s) == (key, value) && (key != "" || value != "")
    ensures |key| + 4 + |value| <= |s|
  {
    var parts := Split(s, KEY_VALUE_SEPARATOR);
    var k := Find(s, KEY_VALUE_SEPARATOR).value;
    var rest := Split(s[k + 4..], KEY_VALUE_SEPARATOR);
    assert parts == [s[..k]] + rest;
    assert |rest[0]| <= |s[k + 4..]|;
  }

  /** For every key and value, parsing the command the client printed recovers the operation,
      the key and the value if and only if neither contains ":::" or "<<>>". */
  lemma CommandRoundTrip(op: string, key: string, value: string)
    requires op == PUT || op == APPEND
    ensures Recovered(PutAppendCmd(op, key, value)) == (op, key, value)
            <==> && !Contains(key, OP_SEPARATOR) && !Contains(value, OP_SEPARATOR)
                 && !Contains(key, KEY_VALUE_SEPARATOR) && !Contains(value, KEY_VALUE_SEPARATOR)
  {
    var rest := key + KEY_VALUE_SEPARATOR + value;
    assert PutAppendCmd(op, key, value) == op + OP_SEPARATOR + rest;
    ParseFindsOp(op, rest);
    OpSeparatorStaysInside(key, value);
    var seen := Head(rest, OP_SEPARATOR);
    if seen == rest {
      KeyValueRoundTrip(key, value);
    } else if SplitPutAppendCmd(seen) == (key, value) {
      if key == "" && value == "" {
        EmptyPairHasNoOpSeparator();
      } else {
        PartsFit(seen, key, value);
      }
    }
  }

  lemma EmptyPairHasNoOpSeparator()
    ensures !Contains("" + KEY_VALUE_SEPARATOR + "", OP_SEPARATOR)
  {
    OpSeparatorStaysInside("", "");
  }

  /** The read of a key without ":::" asks for that key. */
  lemma GetCmdRoundTrip(key: string)
    ensures ParseCmd(GetCmd(key)).0 == GET
    ensures ParseCmd(GetCmd(key)).1 == key <==> !Contains(key, OP_SEPARATOR)
  {
    ParseFindsOp(GET, key);
  }
}
