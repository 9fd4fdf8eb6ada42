/**
 * The abbreviation a channel's description uses for the package of its failure
 * cause: the package name is split on '.', each segment is replaced by its
 * first character, and the results are joined with '.' again
 * ("io.servicefabric.transport" becomes "i.s.t").
 */
module PackageNames {
  import opened Wrappers

  function CountDots(s: string): (n: nat) {
    if s == [] then 0 else (if s[0] == '.' then 1 else 0) + CountDots(s[1..])
  }

  /** Splitting on '.', keeping empty segments: "" gives [""], "a." gives ["a", ""]. */
  function Split(s: string): (parts: seq<string>)
    ensures |parts| == CountDots(s) + 1
    ensures forall i :: 0 <= i < |parts| ==> '.' !in parts[i]
  {
    if s == [] then [[]]
    else
      var rest := Split(s[1..]);
      if s[0] == '.' then [[]] + rest
      else [[s[0]] + rest[0]] + rest[1..]
  }

  /** Joining with '.' between consecutive parts; no parts give "". */
  function Join(parts: seq<string>): (joined: string)
    ensures |parts| >= 1 ==> parts[0] <= joined
    ensures |parts| >= 2 ==> |joined| > |parts[0]| && joined[|parts[0]|] == '.'
  {
    if parts == [] then []
    else if |parts| == 1 then parts[0]
    else parts[0] + "." + Join(parts[1..])
  }

  predicate NoEmptyPart(parts: seq<string>) {
    forall i :: 0 <= i < |parts| ==> parts[i] != []
  }

  /** Each part replaced by the one-character string of its first character. */
  function Initials(parts: seq<string>): (r: seq<string>)
    requires NoEmptyPart(parts)
    ensures |r| == |parts|
    ensures forall i :: 0 <= i < |r| ==> |r[i]| == 1 && r[i] <= parts[i]
  {
    seq(|parts|, i requires 0 <= i < |parts| => [parts[i][0]])
  }

  /** Taking the first character of an empty segment raises. */
  datatype AbbreviationError = StringIndexOutOfBounds

  /**
   * The abbreviation succeeds exactly when no segment is empty. Its result
   * then splits into the segments' initials, and holds one character per
   * segment and the name's dots between them.
   */
  function Abbreviate(packageName: string): (r: Result<string, AbbreviationError>)
    ensures r.Success? <==> NoEmptyPart(Split(packageName))
    ensures r.Success? ==> Split(r.value) == Initials(Split(packageName))
    ensures r.Success? ==> |r.value| == 2 * CountDots(packageName) + 1
  {
    var parts := Split(packageName);
    if NoEmptyPart(parts) then
      var initials := Initials(parts);
      InitialsSplitBack(parts);
      JoinLength(initials);
      Success(Join(initials))
    else Failure(StringIndexOutOfBounds)
  }

  lemma {:induction false} JoinSplit(s: string)
    ensures Join(Split(s)) == s
  {
    if s != [] {
      JoinSplit(s[1..]);
      var rest := Split(s[1..]);
      if s[0] == '.' {
        assert Join([[]] + rest) == [] + "." + Join(rest);
      } else if |rest| == 1 {
        assert [[s[0]] + rest[0]] + rest[1..] == [[s[0]] + rest[0]];
      } else {
        assert ([[s[0]] + rest[0]] + rest[1..])[1..] == rest[1..];
        assert Join(rest) == rest[0] + "." + Join(rest[1..]);
      }
    }
  }

  /** A dot-free prefix joins the first segment of whatever follows it. */
  lemma {:induction false} SplitDotFreePrefix(w: string, t: string)
    requires '.' !in w
    ensures Split(w + t) == [w + Split(t)[0]] + Split(t)[1..]
  {
    if w != [] {
      assert (w + t)[0] == w[0];
      assert (w + t)[1..] == w[1..] + t;
      assert '.' !in w[1..] by {
        forall k | 0 <= k < |w[1..]| ensures w[1..][k] != '.' { assert w[1..][k] == w[k + 1]; }
      }
      SplitDotFreePrefix(w[1..], t);
      assert [w[0]] + (w[1..] + Split(t)[0]) == w + Split(t)[0];
    } else {
      assert w + t == t;
      assert w + Split(t)[0] == Split(t)[0];
      assert Split(t) == [Split(t)[0]] + Split(t)[1..];
    }
  }

  /** Splitting undoes joining whenever no part contains a dot. */
  lemma {:induction false} SplitJoin(parts: seq<string>)
    requires |parts| >= 1
    requires forall i :: 0 <= i < |parts| ==> '.' !in parts[i]
    ensures Split(Join(parts)) == parts
    decreases |parts|
  {
    if |parts| == 1 {
      SplitDotFreePrefix(parts[0], []);
      assert parts[0] + [] == parts[0];
    } else {
      var rest := parts[1..];
      assert forall i :: 0 <= i < |rest| ==> '.' !in rest[i] by {
        forall i | 0 <= i < |rest| ensures '.' !in rest[i] {
          assert rest[i] == parts[i + 1];
        }
      }
      SplitJoin(rest);
      var tail := "." + Join(rest);
      assert Join(parts) == parts[0] + tail;
      assert tail[1..] == Join(rest);
      assert Split(tail) == [[]] + rest;
      SplitDotFreePrefix(parts[0], tail);
      assert parts[0] + [] == parts[0];
      assert parts == [parts[0]] + rest;
    }
  }

  /** Splitting the join of the initials of dot-free segments gives back the initials. */
  lemma InitialsSplitBack(parts: seq<string>)
    requires |parts| >= 1 && NoEmptyPart(parts)
    requires forall i :: 0 <= i < |parts| ==> '.' !in parts[i]
    ensures Split(Join(Initials(parts))) == Initials(parts)
  {
    var initials := Initials(parts);
    forall i | 0 <= i < |initials| ensures '.' !in initials[i] {
      assert initials[i] == [parts[i][0]];
      assert parts[i][0] in parts[i];
    }
    SplitJoin(initials);
  }

  /** Joining one-character parts gives one character per part and a dot between each two. */
  lemma {:induction false} JoinLength(parts: seq<string>)
    requires |parts| >= 1
    requires forall i :: 0 <= i < |parts| ==> |parts[i]| == 1
    ensures |Join(parts)| == 2 * |parts| - 1
    decreases |parts|
  {
    if |parts| > 1 {
      assert |parts[1..][0]| == 1;
      assert forall i :: 0 <= i < |parts[1..]| ==> |parts[1..][i]| == |parts[i + 1]|;
      JoinLength(parts[1..]);
    }
  }

  predicate EndsWithDot(s: string) {
    |s| > 0 && s[|s| - 1] == '.'
  }

  predicate HasDoubleDot(s: string) {
    exists i :: 0 <= i < |s| - 1 && s[i] == '.' && s[i + 1] == '.'
  }

  /** Some segment of `parts` at index `from` or later is empty. */
  predicate EmptyPartFrom(parts: seq<string>, from: nat) {
    exists i :: from <= i < |parts| && parts[i] == []
  }

  /** How the two ways of having an empty inner or final segment look from the second character on. */
  lemma DotShapeShift(s: string)
    requires s != []
    ensures EndsWithDot(s) <==> (if s[1..] == [] then s[0] == '.' else EndsWithDot(s[1..]))
    ensures HasDoubleDot(s) <==> (|s| >= 2 && s[0] == '.' && s[1] == '.') || HasDoubleDot(s[1..])
  {
    var u := s[1..];
    if HasDoubleDot(s) && !(|s| >= 2 && s[0] == '.' && s[1] == '.') {
      var j :| 0 <= j < |s| - 1 && s[j] == '.' && s[j + 1] == '.';
      assert u[j - 1] == '.' && u[j] == '.';
    }
    if HasDoubleDot(u) {
      var j :| 0 <= j < |u| - 1 && u[j] == '.' && u[j + 1] == '.';
      assert s[j + 1] == '.' && s[j + 2] == '.';
    }
  }

  /** The shape of a split whose input starts with a dot: an empty first segment, then the rest's. */
  lemma SplitDotHead(s: string)
    requires s != [] && s[0] == '.'
    ensures Split(s) == [[]] + Split(s[1..])
    ensures EmptyPartFrom(Split(s), 1) <==> EmptyPartFrom(Split(s[1..]), 0)
  {
    var parts, rest := Split(s), Split(s[1..]);
    if EmptyPartFrom(parts, 1) {
      var i :| 1 <= i < |parts| && parts[i] == [];
      assert rest[i - 1] == [];
    }
    if EmptyPartFrom(rest, 0) {
      var i :| 0 <= i < |rest| && rest[i] == [];
      assert parts[i + 1] == [];
    }
  }

  /** Two segment lists that agree after their first segment have an empty later segment together. */
  lemma SameTailSameEmptyParts(parts: seq<string>, others: seq<string>)
    requires |parts| >= 1 && |others| >= 1 && parts[1..] == others[1..]
    ensures EmptyPartFrom(parts, 1) <==> EmptyPartFrom(others, 1)
  {
    if EmptyPartFrom(parts, 1) {
      var i :| 1 <= i < |parts| && parts[i] == [];
      assert others[i] == others[1..][i - 1] == parts[1..][i - 1];
    }
    if EmptyPartFrom(others, 1) {
      var i :| 1 <= i < |others| && others[i] == [];
      assert parts[i] == parts[1..][i - 1] == others[1..][i - 1];
    }
  }

  /** The shape of a split whose input starts with another character: the later segments are the rest's. */
  lemma SplitLetterHead(s: string)
    requires s != [] && s[0] != '.'
    ensures Split(s)[0] == [s[0]] + Split(s[1..])[0]
    ensures EmptyPartFrom(Split(s), 1) <==> EmptyPartFrom(Split(s[1..]), 1)
  {
    var parts, rest := Split(s), Split(s[1..]);
    assert parts == [[s[0]] + rest[0]] + rest[1..];
    SameTailSameEmptyParts(parts, rest);
  }

  /** The first segment is empty exactly when the name is empty or starts with a dot. */
  lemma FirstPartEmptyIff(s: string)
    ensures Split(s)[0] == [] <==> s == [] || s[0] == '.'
  {
    if s != [] && s[0] != '.' {
      SplitLetterHead(s);
    }
  }

  /** Some segment after the first is empty exactly when the name ends with a dot or holds "..". */
  lemma {:induction false} LaterPartEmptyIff(s: string)
    ensures EmptyPartFrom(Split(s), 1) <==> EndsWithDot(s) || HasDoubleDot(s)
  {
    if s != [] {
      var u := s[1..];
      LaterPartEmptyIff(u);
      DotShapeShift(s);
      if s[0] == '.' {
        SplitDotHead(s);
        FirstPartEmptyIff(u);
        assert EmptyPartFrom(Split(u), 0) <==> Split(u)[0] == [] || EmptyPartFrom(Split(u), 1);
      } else {
        SplitLetterHead(s);
      }
    }
  }

  /**
   * The abbreviation raises exactly when the package name has an empty segment:
   * it is empty, starts or ends with a dot, or holds two dots in a row.
   */
  lemma AbbreviationFailsIff(packageName: string)
    ensures Abbreviate(packageName).Failure? <==>
      packageName == [] || packageName[0] == '.' || EndsWithDot(packageName) || HasDoubleDot(packageName)
  {
    var parts := Split(packageName);
    LaterPartEmptyIff(packageName);
    FirstPartEmptyIff(packageName);
    assert NoEmptyPart(parts) <==> parts[0] != [] && !EmptyPartFrom(parts, 1);
  }
}
