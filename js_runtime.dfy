/** The JavaScript built-ins the install flow relies on: falsiness of query
    values, `String.prototype.split`, the comma join that an array undergoes
    when it is concatenated to a string, the decimal rendering of a number,
    and the two ways a step can end (normally or by throwing). */
module JsRuntime {

  datatype Option<+T> = None | Some(value: T)

  /** The exceptions that can arise inside the callback handler. */
  datatype JsError =
    | TypeError    // Buffer.from given `undefined`
    | RangeError   // crypto.timingSafeEqual given buffers of different lengths
    | RequestError // got.post: network failure, non-2xx status or unparsable body

  /** How a step ends: with a value, or by throwing. */
  datatype Completion<+T> = Normal(value: T) | Abrupt(error: JsError)

  /** A query value used as a condition: falsy when absent (`undefined`) or empty. */
  predicate Truthy(v: Option<string>)
  {
    v.Some? && v.value != ""
  }

  /** `s.split(sep)` for a one-character separator: the pieces between the
      separators, in order, empty pieces included; "" splits into [""]. */
  function Split(s: string, sep: char): (pieces: seq<string>)
    ensures |pieces| >= 1
    ensures forall i :: 0 <= i < |pieces| ==> sep !in pieces[i]
    decreases |s|
  {
    if s == [] then [""]
    else
      var rest := Split(s[1..], sep);
      if s[0] == sep then [""] + rest
      else [[s[0]] + rest[0]] + rest[1..]
  }

  /** `pieces.join(sep)`. */
  function Join(pieces: seq<string>, sep: char): string
  {
    if |pieces| == 0 then ""
    else if |pieces| == 1 then pieces[0]
    else pieces[0] + [sep] + Join(pieces[1..], sep)
  }

  /** What `'...' + a` makes of an array of strings `a`: Array.prototype.toString,
      which is `a.join(',')`. */
  function ArrayToString(a: seq<string>): string
  {
    Join(a, ',')
  }

  /** `s` with every occurrence of `from` replaced by `to`. */
  function ReplaceAll(s: string, from: char, to: char): string
  {
    seq(|s|, i requires 0 <= i < |s| => if s[i] == from then to else s[i])
  }

  lemma ReplaceAllCons(s: string, from: char, to: char)
    requires s != []
    ensures ReplaceAll(s, from, to) == [if s[0] == from then to else s[0]] + ReplaceAll(s[1..], from, to)
  {
  }

  /** Joining after splitting a piece onto the front of a non-empty list. */
  lemma JoinConsHead(c: char, pieces: seq<string>, sep: char)
    requires |pieces| >= 1
    ensures Join([[c] + pieces[0]] + pieces[1..], sep) == [c] + Join(pieces, sep)
  {
    var joined := [[c] + pieces[0]] + pieces[1..];
    if |pieces| > 1 {
      assert joined[1..] == pieces[1..];
    }
  }

  /** Splitting on one character and joining on another replaces the first by the second. */
  lemma {:induction false} JoinSplitReplaces(s: string, sep: char, joiner: char)
    ensures Join(Split(s, sep), joiner) == ReplaceAll(s, sep, joiner)
    decreases |s|
  {
    if s != [] {
      var rest := Split(s[1..], sep);
      JoinSplitReplaces(s[1..], sep, joiner);
      ReplaceAllCons(s, sep, joiner);
      if s[0] == sep {
        assert ([""] + rest)[1..] == rest;
      } else {
        JoinConsHead(s[0], rest, sep);
        JoinConsHead(s[0], rest, joiner);
      }
    }
  }

  /** The comma-joined form of a space-split string is the string with every space made a comma. */
  lemma SplitOnSpaceCommaJoined(s: string)
    ensures ArrayToString(Split(s, ' ')) == ReplaceAll(s, ' ', ',')
  {
    JoinSplitReplaces(s, ' ', ',');
  }

  /** Split round trip: re-joining the pieces on the separator gives back the string. */
  lemma {:induction false} JoinSplit(s: string, sep: char)
    ensures Join(Split(s, sep), sep) == s
  {
    JoinSplitReplaces(s, sep, sep);
    assert ReplaceAll(s, sep, sep) == s;
  }

  lemma {:induction false} SplitNoSeparator(p: string, sep: char)
    requires sep !in p
    ensures Split(p, sep) == [p]
    decreases |p|
  {
    if p != [] {
      assert p[0] != sep && sep !in p[1..];
      SplitNoSeparator(p[1..], sep);
      assert [p[0]] + p[1..] == p;
    }
  }

  lemma {:induction false} SplitAfterPiece(p: string, sep: char, t: string)
    requires sep !in p
    ensures Split(p + [sep] + t, sep) == [p] + Split(t, sep)
    decreases |p|
  {
    if p == [] {
      assert p + [sep] + t == [sep] + t;
      assert ([sep] + t)[1..] == t;
    } else {
      var s := p + [sep] + t;
      assert s[0] == p[0] && s[1..] == p[1..] + [sep] + t;
      assert sep !in p[1..];
      SplitAfterPiece(p[1..], sep, t);
      assert [p[0]] + p[1..] == p;
    }
  }

  /** Split is the only decomposition of a string into separator-free pieces:
      splitting the join of such pieces gives the pieces back. */
  lemma {:induction false} SplitJoin(pieces: seq<string>, sep: char)
    requires |pieces| >= 1
    requires forall i :: 0 <= i < |pieces| ==> sep !in pieces[i]
    ensures Split(Join(pieces, sep), sep) == pieces
    decreases |pieces|
  {
    if |pieces| == 1 {
      SplitNoSeparator(pieces[0], sep);
    } else {
      assert sep !in pieces[0];
      SplitAfterPiece(pieces[0], sep, Join(pieces[1..], sep));
      assert forall i :: 0 <= i < |pieces[1..]| ==> sep !in pieces[1..][i] by {
        forall i | 0 <= i < |pieces[1..]| ensures sep !in pieces[1..][i] {
          assert pieces[1..][i] == pieces[i + 1];
        }
      }
      SplitJoin(pieces[1..], sep);
      assert [pieces[0]] + pieces[1..] == pieces;
    }
  }

  function DigitChar(d: int): char
    requires 0 <= d < 10
  {
    ('0' as int + d) as char
  }

  predicate IsDigits(s: string)
  {
    forall i :: 0 <= i < |s| ==> '0' <= s[i] <= '9'
  }

  /** `String(n)` for a non-negative integer below 10^21: its decimal digits,
      at least one, with no leading zero; 0 is the single digit "0". */
  function NumberToString(n: nat): (s: string)
    ensures |s| >= 1 && IsDigits(s)
    ensures s[0] == '0' ==> n == 0 && s == "0"
  {
    if n < 10 then [DigitChar(n)] else NumberToString(n / 10) + [DigitChar(n % 10)]
  }

  /** The number a string of decimal digits denotes. */
  function DigitsValue(s: string): nat
    requires IsDigits(s)
    decreases |s|
  {
    if s == [] then 0
    else
      var front := s[..|s| - 1];
      assert forall i :: 0 <= i < |front| ==> front[i] == s[i];
      10 * DigitsValue(front) + (s[|s| - 1] as int - '0' as int)
  }

  /** Reading back the decimal rendering of a number gives the number. */
  lemma {:induction false} NumberToStringRoundTrip(n: nat)
    ensures DigitsValue(NumberToString(n)) == n
  {
    if n >= 10 {
      NumberToStringRoundTrip(n / 10);
      var s := NumberToString(n);
      assert s[..|s| - 1] == NumberToString(n / 10);
    }
  }
}
