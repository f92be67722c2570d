/** The preimage that links ledger entries by hash (crates/common/src/crypto.rs, ledger_entry_hash). */
module HashChain {
  import opened Decimal
  import opened Models

  const GENESIS := "genesis"

  /** What a ledger row contributes to its own hash. */
  datatype Link = Link(id: Id, amount: int, unixTime: int)
  {
    predicate Encodable() {
      |id| == 36 && amount > 0 && 1_000_000_000 <= unixTime < 10_000_000_000
    }
  }

  function Preimage(prev: string, link: Link): string {
    prev + link.id + Print(link.amount) + Print(link.unixTime)
  }

  function EntryHash(sha256: string -> string, prev: string, link: Link): string {
    sha256(Preimage(prev, link))
  }

  /** A path of entries from "genesis", newest link outermost. */
  datatype Chain = Root | Node(parent: Chain, link: Link)
  {
    predicate Encodable() {
      Node? ==> link.Encodable() && parent.Encodable()
    }
  }

  function ChainHash(sha256: string -> string, chain: Chain): string {
    match chain
    case Root => GENESIS
    case Node(parent, link) => EntryHash(sha256, ChainHash(sha256, parent), link)
  }

  predicate HexDigest(s: string) {
    |s| == 64 && forall i :: 0 <= i < |s| ==> '0' <= s[i] <= '9' || 'a' <= s[i] <= 'f'
  }

  predicate PrevHash(s: string) {
    s == GENESIS || HexDigest(s)
  }

  lemma SplitAt<T>(a: seq<T>, x: seq<T>, b: seq<T>, y: seq<T>)
    requires a + x == b + y && |a| == |b|
    ensures a == b && x == y
  {
    assert a == (a + x)[..|a|] && b == (b + y)[..|b|];
    assert x == (a + x)[|a|..] && y == (b + y)[|b|..];
  }

  lemma SameStart(p: string, x: string, q: string, y: string)
    requires PrevHash(p) && PrevHash(q) && p + x == q + y
    ensures |p| == |q|
  {
    assert (p + x)[0] == p[0] && (q + y)[0] == q[0];
  }

  /** The four parts can be read back from the preimage, although nothing separates them. */
  lemma PreimageInjective(p: string, a: Link, q: string, b: Link)
    requires PrevHash(p) && PrevHash(q) && a.Encodable() && b.Encodable()
    requires Preimage(p, a) == Preimage(q, b)
    ensures p == q && a == b
  {
    var restA, restB := Print(a.amount) + Print(a.unixTime), Print(b.amount) + Print(b.unixTime);
    PreimageParts(p, a);
    PreimageParts(q, b);
    SameStart(p, a.id + restA, q, b.id + restB);
    SplitAt(p, a.id + restA, q, b.id + restB);
    SplitAt(a.id, restA, b.id, restB);
    SameNumbers(a, b);
  }

  lemma PreimageParts(p: string, a: Link)
    ensures Preimage(p, a) == p + (a.id + (Print(a.amount) + Print(a.unixTime)))
  {
  }

  lemma SameNumbers(a: Link, b: Link)
    requires a.Encodable() && b.Encodable()
    requires Print(a.amount) + Print(a.unixTime) == Print(b.amount) + Print(b.unixTime)
    ensures a.amount == b.amount && a.unixTime == b.unixTime
  {
    TenDigits(a.unixTime);
    TenDigits(b.unixTime);
    assert |Print(a.amount) + Print(a.unixTime)| == |Print(b.amount) + Print(b.unixTime)|;
    SplitAt(Print(a.amount), Print(a.unixTime), Print(b.amount), Print(b.unixTime));
    DigitsInjective(a.amount, b.amount);
    DigitsInjective(a.unixTime, b.unixTime);
  }

  ghost predicate HexDigests(sha256: string -> string) {
    forall x :: HexDigest(sha256(x))
  }

  /** Two different strings with one digest. */
  predicate Collide(sha256: string -> string, x: string, y: string) {
    x != y && sha256(x) == sha256(y)
  }

  /** The strings hashed along a chain. */
  function Preimages(sha256: string -> string, chain: Chain): set<string> {
    match chain
    case Root => {}
    case Node(parent, link) => {Preimage(ChainHash(sha256, parent), link)} + Preimages(sha256, parent)
  }

  lemma ChainHashShape(sha256: string -> string, chain: Chain)
    requires HexDigests(sha256)
    ensures PrevHash(ChainHash(sha256, chain))
    ensures chain.Node? ==> ChainHash(sha256, chain) != GENESIS
  {
  }

  lemma SameEntryHash(sha256: string -> string, p: string, a: Link, q: string, b: Link)
    requires PrevHash(p) && PrevHash(q) && a.Encodable() && b.Encodable()
    requires EntryHash(sha256, p, a) == EntryHash(sha256, q, b)
    ensures (p == q && a == b) || Collide(sha256, Preimage(p, a), Preimage(q, b))
  {
    if Preimage(p, a) == Preimage(q, b) {
      PreimageInjective(p, a, q, b);
    }
  }

  /** From two different histories behind one hash, two strings hashed along them can be read off that
      collide: the last ones down to which the histories still agree in their hashes. */
  lemma {:induction false} TamperEvident(sha256: string -> string, p: Chain, q: Chain) returns (x: string, y: string)
    requires HexDigests(sha256) && p.Encodable() && q.Encodable()
    requires ChainHash(sha256, p) == ChainHash(sha256, q)
    ensures p != q ==> x in Preimages(sha256, p) && y in Preimages(sha256, q) && Collide(sha256, x, y)
  {
    x, y := "", "";
    ChainHashShape(sha256, p);
    ChainHashShape(sha256, q);
    if p.Node? && q.Node? {
      var before, earlier := ChainHash(sha256, p.parent), ChainHash(sha256, q.parent);
      ChainHashShape(sha256, p.parent);
      ChainHashShape(sha256, q.parent);
      SameEntryHash(sha256, before, p.link, earlier, q.link);
      if before == earlier && p.link == q.link {
        x, y := TamperEvident(sha256, p.parent, q.parent);
      } else {
        x, y := Preimage(before, p.link), Preimage(earlier, q.link);
      }
    }
  }
}
