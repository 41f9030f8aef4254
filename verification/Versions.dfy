/** Which of two release versions is newer: a strict total order on all version strings. */
module Versions {
  type Version = string

  /** One dotted piece: pieces with digits come first, ordered by their number, then by their text. */
  datatype Piece = Piece(rank: nat, number: nat, text: string)

  predicate IsDigit(c: char) {
    '0' <= c <= '9'
  }

  function Digits(text: string): string {
    if text == "" then ""
    else (if IsDigit(text[0]) then [text[0]] else "") + Digits(text[1..])
  }

  function Number(digits: string): nat {
    if digits == "" then 0
    else 10 * Number(digits[..|digits| - 1]) + DigitValue(digits[|digits| - 1])
  }

  function DigitValue(c: char): nat {
    if IsDigit(c) then c as nat - '0' as nat else 0
  }

  /** The version cut at its dots; the empty version is one empty piece. */
  function Split(version: Version): (pieces: seq<string>)
    ensures pieces != []
  {
    if version == "" then [""]
    else
      var rest := Split(version[1..]);
      if version[0] == '.' then [""] + rest
      else [[version[0]] + rest[0]] + rest[1..]
  }

  function Join(pieces: seq<string>): Version
    requires pieces != []
  {
    if |pieces| == 1 then pieces[0] else pieces[0] + "." + Join(pieces[1..])
  }

  function PieceOf(text: string): Piece {
    var digits := Digits(text);
    if digits != "" then Piece(0, Number(digits), text) else Piece(1, 0, text)
  }

  function Order(version: Version): (pieces: seq<Piece>) {
    var texts := Split(version);
    seq(|texts|, k requires 0 <= k < |texts| => PieceOf(texts[k]))
  }

  /** Strings compare character by character; a proper prefix is smaller. */
  predicate TextLess(a: string, b: string) {
    if b == "" then false
    else if a == "" then true
    else if a[0] != b[0] then a[0] < b[0]
    else TextLess(a[1..], b[1..])
  }

  predicate PieceLess(a: Piece, b: Piece) {
    if a.rank != b.rank then a.rank < b.rank
    else if a.number != b.number then a.number < b.number
    else TextLess(a.text, b.text)
  }

  predicate OrderLess(a: seq<Piece>, b: seq<Piece>) {
    if b == [] then false
    else if a == [] then true
    else if a[0] != b[0] then PieceLess(a[0], b[0])
    else OrderLess(a[1..], b[1..])
  }

  predicate IsNewer(candidate: Version, installed: Version) {
    OrderLess(Order(installed), Order(candidate))
  }

  // ---------------------------------------------------------------- texts, pieces, lists of pieces

  lemma {:induction false} TextsAreOrdered(a: string, b: string)
    ensures a == b ==> !TextLess(a, b)
    ensures a != b ==> TextLess(a, b) != TextLess(b, a)
  {
    if a != "" && b != "" && a[0] == b[0] {
      TextsAreOrdered(a[1..], b[1..]);
      assert a == [a[0]] + a[1..] && b == [b[0]] + b[1..];
    }
  }

  lemma {:induction false} TextsAreTransitive(a: string, b: string, c: string)
    requires TextLess(a, b) && TextLess(b, c)
    ensures TextLess(a, c)
  {
    if a != "" && a[0] == b[0] == c[0] {
      TextsAreTransitive(a[1..], b[1..], c[1..]);
    }
  }

  lemma PiecesAreOrdered(a: Piece, b: Piece)
    ensures a == b ==> !PieceLess(a, b)
    ensures a != b ==> PieceLess(a, b) != PieceLess(b, a)
  {
    TextsAreOrdered(a.text, b.text);
  }

  lemma PiecesAreTransitive(a: Piece, b: Piece, c: Piece)
    requires PieceLess(a, b) && PieceLess(b, c)
    ensures PieceLess(a, c)
  {
    if a.rank == b.rank == c.rank && a.number == b.number == c.number {
      TextsAreTransitive(a.text, b.text, c.text);
    }
  }

  lemma {:induction false} OrdersAreOrdered(a: seq<Piece>, b: seq<Piece>)
    ensures a == b ==> !OrderLess(a, b)
    ensures a != b ==> OrderLess(a, b) != OrderLess(b, a)
  {
    if a != [] && b != [] {
      PiecesAreOrdered(a[0], b[0]);
      if a[0] == b[0] {
        OrdersAreOrdered(a[1..], b[1..]);
        assert a == [a[0]] + a[1..] && b == [b[0]] + b[1..];
      }
    }
  }

  lemma {:induction false} OrdersAreTransitive(a: seq<Piece>, b: seq<Piece>, c: seq<Piece>)
    requires OrderLess(a, b) && OrderLess(b, c)
    ensures OrderLess(a, c)
  {
    if a != [] {
      if a[0] == b[0] == c[0] {
        OrdersAreTransitive(a[1..], b[1..], c[1..]);
      } else if a[0] != b[0] && b[0] != c[0] {
        PiecesAreTransitive(a[0], b[0], c[0]);
        PiecesAreOrdered(a[0], c[0]);
      }
    }
  }

  // ---------------------------------------------------------------- nothing is lost

  lemma JoinGrows(c: char, rest: seq<string>)
    requires rest != []
    ensures Join([[c] + rest[0]] + rest[1..]) == [c] + Join(rest)
  {
    var pieces := [[c] + rest[0]] + rest[1..];
    assert pieces[1..] == rest[1..];
    if |rest| > 1 {
      assert ([c] + rest[0]) + "." + Join(rest[1..]) == [c] + (rest[0] + "." + Join(rest[1..]));
    }
  }

  lemma {:induction false} JoinUndoesSplit(version: Version)
    ensures Join(Split(version)) == version
  {
    if version != "" {
      var rest := Split(version[1..]);
      JoinUndoesSplit(version[1..]);
      assert version == [version[0]] + version[1..];
      if version[0] == '.' {
        assert ([""] + rest)[1..] == rest;
        assert "" + "." + Join(rest) == ['.'] + Join(rest);
      } else {
        JoinGrows(version[0], rest);
      }
    }
  }

  /** Different versions have different orders: every piece keeps its text. */
  lemma OrderIsInjective(a: Version, b: Version)
    requires Order(a) == Order(b)
    ensures a == b
  {
    var x, y := Split(a), Split(b);
    assert |x| == |Order(a)| == |y|;
    forall k | 0 <= k < |x| ensures x[k] == y[k] {
      assert Order(a)[k].text == x[k] && Order(b)[k].text == y[k];
    }
    assert x == y;
    JoinUndoesSplit(a);
    JoinUndoesSplit(b);
  }

  /** Of two different versions exactly one is newer, and no version is newer than itself. */
  lemma NewerIsTotal(a: Version, b: Version)
    ensures !IsNewer(a, a)
    ensures a != b ==> IsNewer(a, b) != IsNewer(b, a)
  {
    OrdersAreOrdered(Order(a), Order(a));
    OrdersAreOrdered(Order(a), Order(b));
    if a != b && Order(a) == Order(b) { OrderIsInjective(a, b); }
  }

  lemma NewerIsTransitive(a: Version, b: Version, c: Version)
    requires IsNewer(a, b) && IsNewer(b, c)
    ensures IsNewer(a, c)
  {
    OrdersAreTransitive(Order(c), Order(b), Order(a));
  }

  /** Where two versions first differ, two pieces with digits are compared as numbers; a longer version is newer. */
  lemma {:induction false} FirstDifferenceDecides(a: seq<Piece>, b: seq<Piece>, k: nat)
    requires k < |a| && k <= |b| && a[..k] == b[..k]
    ensures k == |b| ==> OrderLess(b, a)
    ensures k < |b| && a[k].rank == b[k].rank == 0 && a[k].number != b[k].number ==>
              (OrderLess(b, a) <==> a[k].number > b[k].number)
  {
    if k > 0 {
      assert a[0] == a[..k][0] == b[..k][0] == b[0];
      assert a[1..][..k - 1] == a[..k][1..] && b[1..][..k - 1] == b[..k][1..];
      FirstDifferenceDecides(a[1..], b[1..], k - 1);
    }
  }
}
