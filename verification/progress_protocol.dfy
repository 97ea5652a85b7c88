/** The pr-downloader standard-output protocol: each chunk the monitor reads is treated
    as one line and classified by its prefix. A `[Progress]` line carries the first
    match of the regular expression `[0-9]+/[0-9]+` (current/total); an `[Info]` line is
    passed on whole; anything else is only logged. */
module ProgressProtocol {
  import opened Wrappers
  import opened Strings

  const ProgressTag: string := "[Progress]"
  const InfoTag: string := "[Info]"

  datatype LineEvent = ProgressLine(current: nat, total: nat) | InfoLine(text: string)

  /** The end of the (possibly empty) run of digits that starts at `i`. */
  function DigitRunEnd(s: string, i: nat): (j: nat)
    requires i <= |s|
    ensures i <= j <= |s|
    ensures AllDigits(s[i..j]) && (j == |s| || !IsDigit(s[j]))
    decreases |s| - i
  {
    if i < |s| && IsDigit(s[i]) then
      var j := DigitRunEnd(s, i + 1);
      assert s[i..j] == [s[i]] + s[i + 1..j];
      j
    else i
  }

  lemma {:induction false} DigitRunEndUnique(s: string, i: nat, j: nat)
    requires i <= j <= |s| && AllDigits(s[i..j]) && (j == |s| || !IsDigit(s[j]))
    ensures DigitRunEnd(s, i) == j
    decreases j - i
  {
    if i < j {
      assert IsDigit(s[i..j][0]);
      assert s[i + 1..j] == s[i..j][1..];
      DigitRunEndUnique(s, i + 1, j);
    }
  }

  /** The match of the progress pattern anchored at `i`, read as two numbers. The first
      run of digits must end at the slash; the second run is taken greedily. */
  function MatchAt(s: string, i: nat): Option<(nat, nat)>
    requires i <= |s|
  {
    var j := DigitRunEnd(s, i);
    if i < j && j + 1 < |s| && s[j] == '/' && IsDigit(s[j + 1]) then
      var k := DigitRunEnd(s, j + 1);
      Some((DecimalValue(s[i..j]), DecimalValue(s[j + 1..k])))
    else None
  }

  /** The leftmost match at or after `i`, as `String.prototype.match` finds it. */
  function FirstMatchFrom(s: string, i: nat): Option<(nat, nat)>
    requires i <= |s|
    decreases |s| - i
  {
    if i == |s| then None
    else if MatchAt(s, i).Some? then MatchAt(s, i)
    else FirstMatchFrom(s, i + 1)
  }

  function FindProgress(s: string): Option<(nat, nat)>
  {
    FirstMatchFrom(s, 0)
  }

  /** Classification of one chunk of standard output. */
  function ClassifyLine(line: string): Option<LineEvent>
  {
    if ProgressTag <= line then
      match FindProgress(line)
      case None => None
      case Some((current, total)) => Some(ProgressLine(current, total))
    else if InfoTag <= line then Some(InfoLine(line))
    else None
  }

  // ---------------------------------------------------------------------------------
  // The regular expression, stated independently of the scanner.

  /** Some match of `[0-9]+/[0-9]+` starts at position `i`. */
  ghost predicate MatchStartsAt(s: string, i: nat)
  {
    exists j :: i < j && j + 1 < |s| && AllDigits(s[i..j]) && s[j] == '/' && IsDigit(s[j + 1])
  }

  /** `s[i..k]` is the leftmost, greedy match of the pattern, with its slash at `j`. */
  ghost predicate IsLeftmostMatch(s: string, i: nat, j: nat, k: nat)
  {
    && i < j && j + 1 < k <= |s|
    && AllDigits(s[i..j]) && s[j] == '/' && AllDigits(s[j + 1..k])
    && (k == |s| || !IsDigit(s[k]))
    && forall m | 0 <= m < i :: !MatchStartsAt(s, m)
  }

  lemma MatchAtIff(s: string, i: nat)
    requires i <= |s|
    ensures MatchAt(s, i).Some? <==> MatchStartsAt(s, i)
  {
    var j := DigitRunEnd(s, i);
    if MatchStartsAt(s, i) {
      var j' :| i < j' && j' + 1 < |s| && AllDigits(s[i..j']) && s[j'] == '/' && IsDigit(s[j' + 1]);
      DigitRunEndUnique(s, i, j');
    }
    if MatchAt(s, i).Some? {
      assert i < j && j + 1 < |s| && AllDigits(s[i..j]) && s[j] == '/' && IsDigit(s[j + 1]);
    }
  }

  lemma {:induction false} FirstMatchNone(s: string, from: nat)
    requires from <= |s|
    ensures FirstMatchFrom(s, from).None? <==> forall m | from <= m < |s| :: !MatchStartsAt(s, m)
    decreases |s| - from
  {
    if from < |s| {
      MatchAtIff(s, from);
      FirstMatchNone(s, from + 1);
    }
  }

  lemma {:induction false} FirstMatchAt(s: string, from: nat, m: nat)
    requires from <= m < |s| && MatchStartsAt(s, m)
    requires forall m' | from <= m' < m :: !MatchStartsAt(s, m')
    ensures FirstMatchFrom(s, from) == MatchAt(s, m)
    decreases m - from
  {
    MatchAtIff(s, from);
    if from < m {
      FirstMatchAt(s, from + 1, m);
    }
  }

  lemma {:induction false} FirstMatchWitness(s: string, from: nat) returns (m: nat)
    requires from <= |s| && FirstMatchFrom(s, from).Some?
    ensures from <= m < |s| && MatchStartsAt(s, m)
    ensures forall m' | from <= m' < m :: !MatchStartsAt(s, m')
    ensures FirstMatchFrom(s, from) == MatchAt(s, m)
    decreases |s| - from
  {
    MatchAtIff(s, from);
    if MatchAt(s, from).Some? {
      m := from;
    } else {
      m := FirstMatchWitness(s, from + 1);
    }
  }

  /** A line yields no progress numbers exactly when the pattern matches nowhere in it. */
  lemma FindProgressNone(s: string)
    ensures FindProgress(s).None? <==> forall m | 0 <= m < |s| :: !MatchStartsAt(s, m)
  {
    FirstMatchNone(s, 0);
  }

  /** A match anchored at `i` with no match further left is the leftmost greedy match. */
  lemma AnchoredMatchIsLeftmost(s: string, i: nat)
    requires i <= |s| && MatchAt(s, i).Some?
    requires forall m | 0 <= m < i :: !MatchStartsAt(s, m)
    ensures var j := DigitRunEnd(s, i);
      var k := DigitRunEnd(s, j + 1);
      && IsLeftmostMatch(s, i, j, k)
      && MatchAt(s, i).value == (DecimalValue(s[i..j]), DecimalValue(s[j + 1..k]))
  {
    var j := DigitRunEnd(s, i);
    assert i < j && j + 1 < |s| && s[j] == '/' && IsDigit(s[j + 1]);
    var k := DigitRunEnd(s, j + 1);
    assert j + 1 < k;
  }

  /** Every pair found is read from the leftmost, greedy match. */
  lemma FindProgressSound(s: string)
    requires FindProgress(s).Some?
    ensures exists i: nat, j: nat, k: nat :: IsLeftmostMatch(s, i, j, k)
              && FindProgress(s).value == (DecimalValue(s[i..j]), DecimalValue(s[j + 1..k]))
  {
    var i := FirstMatchWitness(s, 0);
    AnchoredMatchIsLeftmost(s, i);
    var j := DigitRunEnd(s, i);
    var k := DigitRunEnd(s, j + 1);
    assert IsLeftmostMatch(s, i, j, k);
  }

  /** The leftmost match determines the pair found. */
  lemma FindProgressComplete(s: string, i: nat, j: nat, k: nat)
    requires IsLeftmostMatch(s, i, j, k)
    ensures FindProgress(s) == Some((DecimalValue(s[i..j]), DecimalValue(s[j + 1..k])))
  {
    assert IsDigit(s[j + 1..k][0]);
    assert MatchStartsAt(s, i);
    DigitRunEndUnique(s, i, j);
    DigitRunEndUnique(s, j + 1, k);
    FirstMatchAt(s, 0, i);
  }

  /** What a classified line means, in terms of its prefix and the pattern. */
  lemma ClassifyLineMeaning(line: string)
    ensures ClassifyLine(line).Some? && ClassifyLine(line).value.InfoLine? <==>
              !(ProgressTag <= line) && InfoTag <= line
    ensures ClassifyLine(line).Some? && ClassifyLine(line).value.InfoLine? ==>
              ClassifyLine(line).value.text == line
    ensures ClassifyLine(line).Some? && ClassifyLine(line).value.ProgressLine? ==>
              ProgressTag <= line &&
              exists i: nat, j: nat, k: nat :: IsLeftmostMatch(line, i, j, k)
                && ClassifyLine(line).value.current == DecimalValue(line[i..j])
                && ClassifyLine(line).value.total == DecimalValue(line[j + 1..k])
    ensures ProgressTag <= line ==>
              (ClassifyLine(line).None? <==> forall m | 0 <= m < |line| :: !MatchStartsAt(line, m))
  {
    FindProgressNone(line);
    if ProgressTag <= line && FindProgress(line).Some? {
      FindProgressSound(line);
    }
  }

  /** Rendering progress the way pr-downloader prints it and classifying the line gives
      the numbers back: `pre` is any text without a slash that does not end in a digit
      (a percentage and a bar, say) and `rest` does not continue the total. */
  lemma ProgressLineRoundTrip(pre: string, current: nat, total: nat, rest: string)
    requires '/' !in pre
    requires pre == [] || !IsDigit(pre[|pre| - 1])
    requires rest == [] || !IsDigit(rest[0])
    ensures ClassifyLine(ProgressTag + pre + NatToDecimal(current) + "/" + NatToDecimal(total) + rest)
            == Some(ProgressLine(current, total))
  {
    var head := ProgressTag + pre;
    ProgressTagShape();
    assert head[|head| - 1] == if pre == [] then ProgressTag[|ProgressTag| - 1] else pre[|pre| - 1];
    PrefixOfConcat(ProgressTag, pre);
    ClassifyLayout(head, NatToDecimal(current), NatToDecimal(total), rest);
  }

  lemma ProgressTagShape()
    ensures '/' !in ProgressTag && !IsDigit(ProgressTag[|ProgressTag| - 1])
  {
  }

  lemma PrefixOfConcat(p: string, x: string)
    ensures p <= p + x
  {
    assert (p + x)[..|p|] == p;
  }

  /** A tagged line laid out as `head a/b rest` classifies as the progress `a` of `b`. */
  lemma ClassifyLayout(head: string, a: string, b: string, rest: string)
    requires ProgressTag <= head && '/' !in head && !IsDigit(head[|head| - 1])
    requires a != [] && AllDigits(a) && b != [] && AllDigits(b)
    requires rest == [] || !IsDigit(rest[0])
    ensures ClassifyLine(head + a + "/" + b + rest) == Some(ProgressLine(DecimalValue(a), DecimalValue(b)))
  {
    var line := head + a + "/" + b + rest;
    assert FindProgress(line) == Some((DecimalValue(a), DecimalValue(b))) by {
      FindInLayout(head, a, b, rest);
    }
    assert ProgressTag <= line by {
      PrefixOfConcat(head, a + "/" + b + rest);
      assert line == head + (a + "/" + b + rest);
      PrefixTransitive(ProgressTag, head, line);
    }
  }

  lemma PrefixTransitive(x: string, y: string, z: string)
    requires x <= y && y <= z
    ensures x <= z
  {
  }

  /** In `head a/b rest`, with a slash-free `head` ending in a non-digit and `rest` not
      starting with a digit, `a/b` is the leftmost greedy match, so the scanner finds it. */
  lemma FindInLayout(head: string, a: string, b: string, rest: string)
    requires head != [] && '/' !in head && !IsDigit(head[|head| - 1])
    requires a != [] && AllDigits(a) && b != [] && AllDigits(b)
    requires rest == [] || !IsDigit(rest[0])
    ensures FindProgress(head + a + "/" + b + rest) == Some((DecimalValue(a), DecimalValue(b)))
  {
    var line := head + a + "/" + b + rest;
    var i := |head|;
    var j := i + |a|;
    var k := j + 1 + |b|;
    assert line == head + (a + "/" + b + rest);
    assert line[i..j] == a;
    assert line[j] == '/';
    assert line[j + 1..k] == b;
    assert k < |line| ==> line[k] == rest[0];
    NoMatchInHead(head, a + "/" + b + rest);
    assert IsLeftmostMatch(line, i, j, k);
    FindProgressComplete(line, i, j, k);
  }

  /** No match can start inside a slash-free prefix that ends in a non-digit. */
  lemma NoMatchInHead(head: string, tail: string)
    requires head != [] && '/' !in head && !IsDigit(head[|head| - 1])
    ensures forall m | 0 <= m < |head| :: !MatchStartsAt(head + tail, m)
  {
    var line := head + tail;
    var i := |head|;
    forall m | 0 <= m < i
      ensures !MatchStartsAt(line, m)
    {
      forall j' | m < j' && j' + 1 < |line|
        ensures !(AllDigits(line[m..j']) && line[j'] == '/')
      {
        if j' >= i {
          // the run would have to cross the last character of `head`
          assert line[m..j'][i - 1 - m] == line[i - 1] == head[|head| - 1];
        } else {
          assert line[j'] == head[j'];
        }
      }
    }
  }
}
