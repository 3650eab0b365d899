/** The audit trail as a hash chain: what appending keeps, and when equal heads mean equal trails. */
module AuditChain {

  datatype Record = Record(body: string, sequence: nat, previousHash: string, eventHash: string)

  type Hash = string -> string

  function Digit(d: nat): char
    requires d < 10
  {
    '0' + d as char
  }

  function Decimal(n: nat): string {
    if n < 10 then [Digit(n)] else Decimal(n / 10) + [Digit(n % 10)]
  }

  /** The number that a string of decimal digits stands for. */
  function ValueOf(digits: string): int {
    if digits == [] then 0 else 10 * ValueOf(digits[..|digits| - 1]) + (digits[|digits| - 1] as int - '0' as int)
  }

  /** The text of a number stands for it, and has no leading zero. */
  lemma {:induction false} DecimalMeans(n: nat)
    ensures ValueOf(Decimal(n)) == n
    ensures Decimal(n) != [] && (n > 0 ==> Decimal(n)[0] != '0') && (n == 0 ==> Decimal(n) == "0")
  {
    var text := Decimal(n);
    if n < 10 {
      assert text[..0] == [] && ValueOf([]) == 0;
    } else {
      DecimalMeans(n / 10);
      assert text[..|text| - 1] == Decimal(n / 10);
    }
  }

  predicate IsDigit(c: char) {
    '0' <= c <= '9'
  }

  /** What is hashed for a record. */
  function Input(r: Record): string {
    r.previousHash + r.body + Decimal(r.sequence)
  }

  /** A body is the text of a JSON object. */
  predicate IsBody(body: string) {
    body != [] && body[|body| - 1] == '}'
  }

  predicate Sealed(hash: Hash, width: nat, r: Record) {
    |r.previousHash| == width && IsBody(r.body) && r.eventHash == hash(Input(r))
  }

  /** A stretch of the trail: consecutive sequence numbers, and each record seals the one before it. */
  predicate Segment(hash: Hash, width: nat, s: seq<Record>) {
    && (forall i :: 0 <= i < |s| ==> Sealed(hash, width, s[i]))
    && (forall i :: 0 < i < |s| ==> s[i].sequence == s[0].sequence + i && s[i].previousHash == s[i - 1].eventHash)
  }

  function Genesis(width: nat): string {
    seq(width, _ => '0')
  }

  function Head(width: nat, s: seq<Record>): string {
    if s == [] then Genesis(width) else s[|s| - 1].eventHash
  }

  /** A whole trail starts at 1 from the genesis value. */
  predicate Chain(hash: Hash, width: nat, s: seq<Record>) {
    Segment(hash, width, s) && (s != [] ==> s[0].sequence == 1 && s[0].previousHash == Genesis(width))
  }

  /** No two of the hashed texts collide, and none hashes to the genesis value. */
  predicate CollisionFree(hash: Hash, width: nat, a: seq<Record>, b: seq<Record>) {
    && (forall x <- a, y <- b :: hash(Input(x)) == hash(Input(y)) ==> Input(x) == Input(y))
    && (forall x <- a + b :: hash(Input(x)) != Genesis(width))
  }

  lemma {:induction false} DecimalDigits(n: nat)
    ensures Decimal(n) != [] && forall c <- Decimal(n) :: IsDigit(c)
  {
    if n >= 10 {
      DecimalDigits(n / 10);
    }
  }

  lemma {:induction false} DecimalInjective(m: nat, n: nat)
    requires Decimal(m) == Decimal(n)
    ensures m == n
  {
    DecimalDigits(m / 10);
    DecimalDigits(n / 10);
    var dm, dn := Decimal(m), Decimal(n);
    assert dm[|dm| - 1] == Digit(m % 10) && dn[|dn| - 1] == Digit(n % 10);
    if m >= 10 && n >= 10 {
      assert dm[..|dm| - 1] == Decimal(m / 10) && dn[..|dn| - 1] == Decimal(n / 10);
      DecimalInjective(m / 10, n / 10);
    }
  }

  lemma LastBrace(body: string, digits: string)
    requires IsBody(body) && forall c <- digits :: IsDigit(c)
    ensures (body + digits)[|body| - 1] == '}'
    ensures forall i :: |body| <= i < |body + digits| ==> (body + digits)[i] != '}'
  {
    forall i | |body| <= i < |body + digits| ensures (body + digits)[i] != '}' {
      assert digits[i - |body|] in digits;
    }
  }

  /** A body and a digit suffix can be told apart: the last closing brace ends the body. */
  lemma SplitUnique(body1: string, digits1: string, body2: string, digits2: string)
    requires IsBody(body1) && IsBody(body2)
    requires (forall c <- digits1 :: IsDigit(c)) && (forall c <- digits2 :: IsDigit(c))
    requires body1 + digits1 == body2 + digits2
    ensures body1 == body2 && digits1 == digits2
  {
    var whole := body1 + digits1;
    LastBrace(body1, digits1);
    LastBrace(body2, digits2);
    assert body1 == whole[..|body1|] && body2 == whole[..|body2|];
    assert digits1 == whole[|body1|..] && digits2 == whole[|body2|..];
  }

  /** The hashed text determines the record. */
  lemma InputInjective(hash: Hash, width: nat, r: Record, s: Record)
    requires Sealed(hash, width, r) && Sealed(hash, width, s) && Input(r) == Input(s)
    ensures r == s
  {
    var whole := Input(r);
    assert whole == r.previousHash + (r.body + Decimal(r.sequence));
    assert whole == s.previousHash + (s.body + Decimal(s.sequence));
    assert r.previousHash == whole[..width] && s.previousHash == whole[..width];
    assert r.body + Decimal(r.sequence) == whole[width..] == s.body + Decimal(s.sequence);
    DecimalDigits(r.sequence);
    DecimalDigits(s.sequence);
    SplitUnique(r.body, Decimal(r.sequence), s.body, Decimal(s.sequence));
    DecimalInjective(r.sequence, s.sequence);
  }

  /** Records with the same hash are the same. */
  lemma SameRecord(hash: Hash, width: nat, a: seq<Record>, b: seq<Record>, i: nat, k: nat)
    requires Segment(hash, width, a) && Segment(hash, width, b) && CollisionFree(hash, width, a, b)
    requires i < |a| && k < |b| && a[i].eventHash == b[k].eventHash
    ensures a[i] == b[k]
  {
    assert a[i] in a && b[k] in b;
    assert Sealed(hash, width, a[i]) && Sealed(hash, width, b[k]);
    InputInjective(hash, width, a[i], b[k]);
  }

  lemma {:induction false} AgreeFromEnd(hash: Hash, width: nat, a: seq<Record>, b: seq<Record>, j: nat)
    requires Segment(hash, width, a) && Segment(hash, width, b) && CollisionFree(hash, width, a, b)
    requires j < |a| <= |b| && a[|a| - 1].eventHash == b[|b| - 1].eventHash
    ensures a[|a| - 1 - j] == b[|b| - 1 - j]
  {
    if j > 0 {
      AgreeFromEnd(hash, width, a, b, j - 1);
      assert a[|a| - j].previousHash == a[|a| - 1 - j].eventHash;
      assert b[|b| - j].previousHash == b[|b| - 1 - j].eventHash;
    }
    SameRecord(hash, width, a, b, |a| - 1 - j, |b| - 1 - j);
  }

  /** Two stretches that end in the same hash agree on their common length, record by record. A trimmed
      trail is such a stretch. */
  lemma SegmentsAgree(hash: Hash, width: nat, a: seq<Record>, b: seq<Record>)
    requires Segment(hash, width, a) && Segment(hash, width, b)
    requires CollisionFree(hash, width, a, b)
    requires 0 < |a| <= |b| && a[|a| - 1].eventHash == b[|b| - 1].eventHash
    ensures a == b[|b| - |a|..]
  {
    var d := |b| - |a|;
    forall i | 0 <= i < |a| ensures a[i] == b[d + i] {
      AgreeFromEnd(hash, width, a, b, |a| - 1 - i);
    }
    SuffixByElements(a, b, d);
  }

  lemma SuffixByElements(a: seq<Record>, b: seq<Record>, d: nat)
    requires d + |a| == |b| && forall i :: 0 <= i < |a| ==> a[i] == b[d + i]
    ensures a == b[d..]
  {
  }

  lemma NeverGenesis(hash: Hash, width: nat, a: seq<Record>, b: seq<Record>)
    requires Chain(hash, width, b) && CollisionFree(hash, width, a, b)
    ensures forall i :: 0 <= i < |b| ==> b[i].eventHash != Genesis(width)
  {
    forall i | 0 <= i < |b| ensures b[i].eventHash != Genesis(width) {
      assert b[i] in a + b && Sealed(hash, width, b[i]);
    }
  }

  /** Tamper evidence: two valid trails with the same head hash are the same trail. */
  lemma HeadDeterminesTrail(hash: Hash, width: nat, a: seq<Record>, b: seq<Record>)
    requires Chain(hash, width, a) && Chain(hash, width, b) && CollisionFree(hash, width, a, b)
    ensures Head(width, a) == Head(width, b) <==> a == b
  {
    if Head(width, a) == Head(width, b) {
      if |a| <= |b| {
        NoLonger(hash, width, a, b);
      } else {
        CollisionFreeSwap(hash, width, a, b);
        NoLonger(hash, width, b, a);
      }
    }
  }

  lemma CollisionFreeSwap(hash: Hash, width: nat, a: seq<Record>, b: seq<Record>)
    requires CollisionFree(hash, width, a, b)
    ensures CollisionFree(hash, width, b, a)
  {
    forall p <- b + a ensures hash(Input(p)) != Genesis(width) { assert p in a + b; }
  }

  lemma NoLonger(hash: Hash, width: nat, a: seq<Record>, b: seq<Record>)
    requires Chain(hash, width, a) && Chain(hash, width, b) && CollisionFree(hash, width, a, b)
    requires |a| <= |b| && Head(width, a) == Head(width, b)
    ensures a == b
  {
    NeverGenesis(hash, width, a, b);
    if a != [] {
      SegmentsAgree(hash, width, a, b);
      assert a[0] == b[|b| - |a|];
    }
  }

  /** Appending seals the trail so far. */
  lemma AppendKeeps(hash: Hash, width: nat, s: seq<Record>, body: string)
    requires Chain(hash, width, s) && IsBody(body) && forall text :: |hash(text)| == width
    ensures var r0 := Record(body, |s| + 1, Head(width, s), "");
      var r := r0.(eventHash := hash(Input(r0)));
      Chain(hash, width, s + [r]) && Head(width, s + [r]) == r.eventHash
  {
    var r0 := Record(body, |s| + 1, Head(width, s), "");
    var r := r0.(eventHash := hash(Input(r0)));
    assert Input(r) == Input(r0);
    if s != [] { assert Sealed(hash, width, s[|s| - 1]); }
    var s' := s + [r];
    forall i | 0 <= i < |s'| ensures Sealed(hash, width, s'[i]) {
      if i < |s| { assert Sealed(hash, width, s[i]); }
    }
  }
}
