/** The unanchored pattern `/(\d+)h\s+(\d+)m/` with which the attendance code
    reads durations such as "7h 45m" out of a record field, and `parseInt` on
    its two groups. The search is modelled as the regular-expression engine
    runs it: leftmost start first, each quantifier greedy. */
module HourMinutePattern {
  import opened JsValues
  import opened Text

  /** The end of the longest run of characters in class `inClass` starting at `i`. */
  function RunEnd(s: string, i: nat, inClass: char -> bool): (j: nat)
    requires i <= |s|
    ensures i <= j <= |s|
    ensures forall k :: i <= k < j ==> inClass(s[k])
    ensures j < |s| ==> !inClass(s[j])
    decreases |s| - i
  {
    if i < |s| && inClass(s[i]) then RunEnd(s, i + 1, inClass) else i
  }

  /** The two captured numbers, `parseInt(match[1])` and `parseInt(match[2])`. */
  datatype Groups = Groups(hours: nat, minutes: nat)

  /** The greedy attempt at start position `i`. Giving back characters from a
      greedy run never helps here: the character after a shorter digit run is
      a digit, never 'h' or 'm', and after a shorter space run it is a space,
      never a digit. */
  function MatchAt(s: string, i: nat): Option<Groups>
    requires i <= |s|
  {
    var j := RunEnd(s, i, IsDigit);
    if j == i || j == |s| || s[j] != 'h' then None
    else
      var k := RunEnd(s, j + 1, IsJsSpace);
      if k == j + 1 then None
      else
        var l := RunEnd(s, k, IsDigit);
        if l == k || l == |s| || s[l] != 'm' then None
        else Some(Groups(DigitsValue(s[i..j]), DigitsValue(s[k..l])))
  }

  /** The first successful attempt at a start position `i` or later. */
  function Search(s: string, i: nat): Option<Groups>
    requires i <= |s|
    decreases |s| - i
  {
    if i == |s| then None
    else if MatchAt(s, i).Some? then MatchAt(s, i)
    else Search(s, i + 1)
  }

  /** `s.match(/(\d+)h\s+(\d+)m/)`, reduced to its two numbers. */
  function MatchHoursMinutes(s: string): Option<Groups>
  {
    Search(s, 0)
  }

  /** Reference definition: `s[i..l+1]` is a word of the pattern's language,
      digits `s[i..j]`, then 'h', white space `s[j+1..k]`, digits `s[k..l]`, then 'm'. */
  ghost predicate Occurs(s: string, i: nat, j: nat, k: nat, l: nat)
  {
    i < j < k < l < |s| && j + 1 < k
    && AllDigits(s[i..j]) && s[j] == 'h'
    && (forall p :: j + 1 <= p < k ==> IsJsSpace(s[p]))
    && AllDigits(s[k..l]) && s[l] == 'm'
  }

  /** An occurrence starting at `i` is exactly what the greedy attempt at `i` finds. */
  lemma OccursGivesMatchAt(s: string, i: nat, j: nat, k: nat, l: nat)
    requires Occurs(s, i, j, k, l)
    ensures MatchAt(s, i) == Some(Groups(DigitsValue(s[i..j]), DigitsValue(s[k..l])))
  {
    assert forall p :: i <= p < j ==> IsDigit(s[p]) by {
      forall p | i <= p < j ensures IsDigit(s[p]) { assert s[i..j][p - i] == s[p]; }
    }
    assert forall p :: k <= p < l ==> IsDigit(s[p]) by {
      forall p | k <= p < l ensures IsDigit(s[p]) { assert s[k..l][p - k] == s[p]; }
    }
    RunEndIs(s, i, IsDigit, j);
    RunEndIs(s, j + 1, IsJsSpace, k);
    RunEndIs(s, k, IsDigit, l);
    MatchAtOfRuns(s, i, j, k, l);
  }

  /** The greedy attempt, given where its three runs end. */
  lemma MatchAtOfRuns(s: string, i: nat, j: nat, k: nat, l: nat)
    requires i < j < k < l < |s| && j + 1 < k && s[j] == 'h' && s[l] == 'm'
    requires RunEnd(s, i, IsDigit) == j && RunEnd(s, j + 1, IsJsSpace) == k && RunEnd(s, k, IsDigit) == l
    ensures MatchAt(s, i) == Some(Groups(DigitsValue(s[i..j]), DigitsValue(s[k..l])))
  {
  }

  /** A run that is followed by a character outside its class ends there. */
  lemma RunEndIs(s: string, i: nat, inClass: char -> bool, j: nat)
    requires i <= j < |s|
    requires forall p :: i <= p < j ==> inClass(s[p])
    requires !inClass(s[j])
    ensures RunEnd(s, i, inClass) == j
  {
  }

  /** A successful greedy attempt at `i` is an occurrence starting at `i`. */
  lemma MatchAtGivesOccurs(s: string, i: nat) returns (j: nat, k: nat, l: nat)
    requires i <= |s|
    requires MatchAt(s, i).Some?
    ensures Occurs(s, i, j, k, l)
    ensures MatchAt(s, i) == Some(Groups(DigitsValue(s[i..j]), DigitsValue(s[k..l])))
  {
    j := RunEnd(s, i, IsDigit);
    k := RunEnd(s, j + 1, IsJsSpace);
    l := RunEnd(s, k, IsDigit);
  }

  /** No occurrence starts at `i` exactly when the greedy attempt at `i` fails. */
  lemma MatchAtFailsIffNoOccurrence(s: string, i: nat)
    requires i <= |s|
    ensures MatchAt(s, i).None? <==> forall j: nat, k: nat, l: nat :: !Occurs(s, i, j, k, l)
  {
    if MatchAt(s, i).Some? {
      var j, k, l := MatchAtGivesOccurs(s, i);
    } else {
      forall j: nat, k: nat, l: nat ensures !Occurs(s, i, j, k, l) {
        if Occurs(s, i, j, k, l) {
          OccursGivesMatchAt(s, i, j, k, l);
        }
      }
    }
  }

  /** The search from `from` fails exactly when no occurrence starts at `from` or later. */
  lemma {:induction false} SearchFailsIffNoOccurrence(s: string, from: nat)
    requires from <= |s|
    ensures Search(s, from).None? <==> forall i: nat, j: nat, k: nat, l: nat :: from <= i ==> !Occurs(s, i, j, k, l)
    decreases |s| - from
  {
    if from == |s| {
    } else {
      MatchAtFailsIffNoOccurrence(s, from);
      SearchFailsIffNoOccurrence(s, from + 1);
    }
  }

  /** A successful search from `from` reports the groups of the leftmost
      occurrence starting at `from` or later. */
  lemma {:induction false} SearchFindsLeftmost(s: string, from: nat) returns (i: nat, j: nat, k: nat, l: nat)
    requires from <= |s|
    requires Search(s, from).Some?
    ensures from <= i && Occurs(s, i, j, k, l)
    ensures Search(s, from) == Some(Groups(DigitsValue(s[i..j]), DigitsValue(s[k..l])))
    ensures forall i': nat, j': nat, k': nat, l': nat :: from <= i' < i ==> !Occurs(s, i', j', k', l')
    decreases |s| - from
  {
    if MatchAt(s, from).Some? {
      i := from;
      j, k, l := MatchAtGivesOccurs(s, from);
    } else {
      MatchAtFailsIffNoOccurrence(s, from);
      assert Search(s, from) == Search(s, from + 1);
      i, j, k, l := SearchFindsLeftmost(s, from + 1);
      forall i': nat, j': nat, k': nat, l': nat | from <= i' < i
        ensures !Occurs(s, i', j', k', l')
      {
        if i' == from {
          assert !Occurs(s, from, j', k', l');
        }
      }
    }
  }

  /** The pattern finds nothing exactly when no substring is an occurrence, and
      otherwise reports the numbers of the leftmost one. */
  lemma MatchIsLeftmostOccurrence(s: string)
    ensures MatchHoursMinutes(s).None? <==> forall i: nat, j: nat, k: nat, l: nat :: !Occurs(s, i, j, k, l)
    ensures MatchHoursMinutes(s).Some? ==>
      exists i: nat, j: nat, k: nat, l: nat :: Occurs(s, i, j, k, l)
        && MatchHoursMinutes(s) == Some(Groups(DigitsValue(s[i..j]), DigitsValue(s[k..l])))
        && forall i': nat, j': nat, k': nat, l': nat :: i' < i ==> !Occurs(s, i', j', k', l')
  {
    SearchFailsIffNoOccurrence(s, 0);
    if MatchHoursMinutes(s).Some? {
      var i, j, k, l := SearchFindsLeftmost(s, 0);
    }
  }

  /** `${h}h ${m}m`, the way the widget writes a duration. */
  function FormatHoursMinutes(h: nat, m: nat): string
  {
    DecimalString(h) + "h " + DecimalString(m) + "m"
  }

  /** Reading back a displayed duration gives the same two numbers; the minutes
      are taken as written, so "3h 75m" reads as 3 and 75, not as 4 and 15. */
  lemma FormatThenMatch(h: nat, m: nat)
    ensures MatchHoursMinutes(FormatHoursMinutes(h, m)) == Some(Groups(h, m))
  {
    var hs, ms := DecimalString(h), DecimalString(m);
    var s := FormatHoursMinutes(h, m);
    var j := |hs|;
    var k := j + 2;
    var l := k + |ms|;
    assert s[0..j] == hs;
    assert s[k..l] == ms;
    assert s[j] == 'h' && s[j + 1] == ' ' && s[l] == 'm';
    assert Occurs(s, 0, j, k, l);
    OccursGivesMatchAt(s, 0, j, k, l);
    DecimalStringRoundTrip(h);
    DecimalStringRoundTrip(m);
  }
}
