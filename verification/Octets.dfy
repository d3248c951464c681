/** Addresses, account bytes, and the little-endian and length-prefixed codecs the account layouts are made of. */
module Octets {
  import opened Outcomes

  type byte = x: int | 0 <= x < 0x100
  type u32 = x: int | 0 <= x < 0x1_0000_0000
  type u64 = x: int | 0 <= x < 0x1_0000_0000_0000_0000

  const U64_LIMIT: int := 0x1_0000_0000_0000_0000

  /** An account address. Addresses derived by the delegation program have a constructor each, so that two
      derivations never collide and none of them is the address of a wallet, a program, or an account derived
      by another program. */
  datatype Key =
    | System                                            // the system program, whose address is also the default key
    | Dlp                                               // the delegation program
    | User(id: nat, onCurve: bool)                      // wallets, programs and any other plain address
    | Derived(program: Key, seeds: seq<seq<Octet>>)     // derived by the named program
    | Record(of: Key)                                   // delegation record
    | Metadata(of: Key)                                 // delegation metadata
    | CommitState(of: Key)
    | CommitRecord(of: Key)
    | UndelegateBuffer(of: Key)
    | FeesVault
    | ValidatorVault(of: Key)
    | Config(of: Key)                                   // program config
    | Escrow(of: Key, index: byte)                      // ephemeral balance

  /** One byte of account data: a number, or the index-th byte of the 32-byte address of a key. The bytes of an
      address are never computed, so only whole addresses can be read back. */
  datatype Octet = B(value: byte) | K(key: Key, index: nat)

  type Bytes = seq<Octet>

  /** True of the addresses only the delegation program can sign for. */
  predicate ProgramAddress(k: Key) {
    match k
    case System | Dlp | User(_, _) => false
    case Derived(program, _) => program == Dlp
    case _ => true
  }

  function KeyBytes(k: Key): (r: Bytes)
    ensures |r| == 32
  {
    seq(32, i requires 0 <= i < 32 => K(k, i))
  }

  function Ascii(s: string): Bytes {
    seq(|s|, i requires 0 <= i < |s| => B(s[i] as int % 0x100))
  }

  function EscrowSeeds(of: Key, index: byte): seq<Bytes> {
    [Ascii("balance"), KeyBytes(of), [B(index)]]
  }

  /** The program and the seeds an address is derived from, if it is a derived one. */
  function Derivation(k: Key): Option<(Key, seq<Bytes>)> {
    match k
    case System | Dlp | User(_, _) => None
    case Derived(program, seeds) => Some((program, seeds))
    case Record(of) => Some((Dlp, [Ascii("delegation"), KeyBytes(of)]))
    case Metadata(of) => Some((Dlp, [Ascii("delegation-metadata"), KeyBytes(of)]))
    case CommitState(of) => Some((Dlp, [Ascii("state-diff"), KeyBytes(of)]))
    case CommitRecord(of) => Some((Dlp, [Ascii("commit-state-record"), KeyBytes(of)]))
    case UndelegateBuffer(of) => Some((Dlp, [Ascii("undelegate-buffer"), KeyBytes(of)]))
    case FeesVault => Some((Dlp, [Ascii("fees-vault")]))
    case ValidatorVault(of) => Some((Dlp, [Ascii("v-fees-vault"), KeyBytes(of)]))
    case Config(of) => Some((Dlp, [Ascii("p-conf"), KeyBytes(of)]))
    case Escrow(of, index) => Some((Dlp, EscrowSeeds(of, index)))
  }

  /** The seeds one after the other: deriving an address depends on nothing else of them. */
  function Flat(seeds: seq<Bytes>): Bytes {
    if seeds == [] then [] else seeds[0] + Flat(seeds[1..])
  }

  lemma FlatSeeds(name: Bytes, key: Bytes, index: Bytes)
    ensures Flat([name]) == name
    ensures Flat([name, key]) == name + key
    ensures Flat([name, key, index]) == name + key + index
  {
    assert [name][1..] == [] && [name, key][1..] == [key] && [name, key, index][1..] == [key, index];
    assert [key][1..] == [] && [key, index][1..] == [index] && [index][1..] == [];
    assert Flat([]) == [];
    assert Flat([name]) == name + [] && Flat([key]) == key + [] && Flat([index]) == index + [];
  }

  /** The label in the seeds of an account the program derives. */
  function Label(k: Key): string {
    match k
    case Record(_) => "delegation"
    case Metadata(_) => "delegation-metadata"
    case CommitState(_) => "state-diff"
    case CommitRecord(_) => "commit-state-record"
    case UndelegateBuffer(_) => "undelegate-buffer"
    case FeesVault => "fees-vault"
    case ValidatorVault(_) => "v-fees-vault"
    case Config(_) => "p-conf"
    case Escrow(_, _) => "balance"
    case _ => ""
  }

  /** The seeds of such an account: its label, then 32 bytes of an address unless it is the protocol's vault, then one
      byte if it is an escrow account. */
  lemma FlatDerivation(k: Key)
    requires Derivation(k).Some? && !k.Derived?
    ensures var f, n := Flat(Derivation(k).value.1), |Label(k)|;
            && n >= 6 && |f| == n + (if k.FeesVault? then 0 else 32) + (if k.Escrow? then 1 else 0)
            && f[0] == B(Label(k)[0] as int % 0x100)
            && (!k.FeesVault? ==> f[n] == K(k.of, 0))
            && (k.Escrow? ==> f[n + 32] == B(k.index))
  {
    var name := Ascii(Label(k));
    var key := if k.FeesVault? then [] else KeyBytes(k.of);
    var index := if k.Escrow? then [B(k.index)] else [];
    FlatSeeds(name, key, index);
    assert Flat(Derivation(k).value.1) == name + key + index;
  }

  /** Different accounts of the program are derived from different bytes, whichever way these are split into seeds: the
      length and the first byte give the kind, and the first byte of the address gives the address. */
  lemma SeedsDistinguish(j: Key, k: Key)
    requires Derivation(j).Some? && !j.Derived? && Derivation(k).Some? && !k.Derived?
    requires Flat(Derivation(j).value.1) == Flat(Derivation(k).value.1)
    ensures j == k
  {
    FlatDerivation(j);
    FlatDerivation(k);
    hide Derivation, Flat;
    assert Label(j)[0] as int % 0x100 == Label(k)[0] as int % 0x100;
  }

  /** The account an owner program stages the bytes of a delegated account in. */
  function DelegateBuffer(of: Key, program: Key): Key {
    Derived(program, [Ascii("buffer"), KeyBytes(of)])
  }

  predicate OnCurve(k: Key) {
    k.User? && k.onCurve
  }

  // ---- Little-endian integers ----

  function Pow256(w: nat): (r: nat)
    ensures r > 0
  {
    if w == 0 then 1 else 0x100 * Pow256(w - 1)
  }

  function LeBytes(x: nat, w: nat): (r: Bytes)
    ensures |r| == w
  {
    if w == 0 then [] else [B(x % 0x100)] + LeBytes(x / 0x100, w - 1)
  }

  function LeValue(s: Bytes): Option<nat> {
    if s == [] then Some(0)
    else if !s[0].B? then None
    else match LeValue(s[1..])
         case None => None
         case Some(high) => Some(s[0].value + 0x100 * high)
  }

  lemma {:induction false} LeRoundTrip(x: nat, w: nat)
    requires x < Pow256(w)
    ensures LeValue(LeBytes(x, w)) == Some(x)
  {
    if w > 0 {
      LeRoundTrip(x / 0x100, w - 1);
      assert LeBytes(x, w)[1..] == LeBytes(x / 0x100, w - 1);
    }
  }

  lemma {:induction false} LeBounded(s: Bytes)
    ensures LeValue(s).Some? ==> LeValue(s).value < Pow256(|s|)
  {
    if s != [] {
      LeBounded(s[1..]);
    }
  }

  lemma Pow256Of8()
    ensures Pow256(8) == U64_LIMIT
  {
    assert Pow256(4) == 0x1_0000_0000;
  }

  lemma Pow256Of4()
    ensures Pow256(4) == 0x1_0000_0000
  {}

  // ---- Parsing from the front ----

  /** The value read from the front of some bytes, and the bytes after it. */
  datatype Parsed<+T> = Malformed | Parsed(value: T, rest: Bytes) {
    predicate IsFailure() {
      Malformed?
    }

    function PropagateFailure<U>(): Parsed<U>
      requires Malformed?
    {
      Malformed
    }

    function Extract(): (T, Bytes)
      requires Parsed?
    {
      (value, rest)
    }
  }

  function TakeU64(d: Bytes): Parsed<u64> {
    if |d| < 8 then Malformed
    else match LeValue(d[..8])
         case None => Malformed
         case Some(x) => LeBounded(d[..8]); Pow256Of8(); Parsed(x, d[8..])
  }

  function TakeU32(d: Bytes): Parsed<u32> {
    if |d| < 4 then Malformed
    else match LeValue(d[..4])
         case None => Malformed
         case Some(x) => LeBounded(d[..4]); Pow256Of4(); Parsed(x, d[4..])
  }

  function TakeBool(d: Bytes): Parsed<bool> {
    if |d| >= 1 && d[0] == B(0) then Parsed(false, d[1..])
    else if |d| >= 1 && d[0] == B(1) then Parsed(true, d[1..])
    else Malformed
  }

  function TakeKey(d: Bytes): Parsed<Key> {
    if |d| >= 32 && d[0].K? && d[..32] == KeyBytes(d[0].key) then Parsed(d[0].key, d[32..]) else Malformed
  }

  /** A vector of bytes: a four-byte length, then the bytes. */
  function TakeBlob(d: Bytes): Parsed<Bytes> {
    var (n, rest) :- TakeU32(d);
    if |rest| < n then Malformed else Parsed(rest[..n], rest[n..])
  }

  function TakeBlobs(n: nat, d: Bytes): Parsed<seq<Bytes>> {
    if n == 0 then Parsed([], d)
    else
      var (first, rest) :- TakeBlob(d);
      var (others, rest') :- TakeBlobs(n - 1, rest);
      Parsed([first] + others, rest')
  }

  function TakeKeys(n: nat, d: Bytes): Parsed<seq<Key>> {
    if n == 0 then Parsed([], d)
    else
      var (first, rest) :- TakeKey(d);
      var (others, rest') :- TakeKeys(n - 1, rest);
      Parsed([first] + others, rest')
  }

  function BoolBytes(b: bool): (r: Bytes)
    ensures |r| == 1
  {
    [B(if b then 1 else 0)]
  }

  function BlobBytes(blob: Bytes): Bytes {
    LeBytes(|blob|, 4) + blob
  }

  function BlobsBytes(blobs: seq<Bytes>): Bytes {
    if blobs == [] then [] else BlobBytes(blobs[0]) + BlobsBytes(blobs[1..])
  }

  function KeysBytes(keys: seq<Key>): (r: Bytes)
    ensures |r| == 32 * |keys|
  {
    if keys == [] then [] else KeyBytes(keys[0]) + KeysBytes(keys[1..])
  }

  // ---- What was written is read back, whatever follows it ----

  lemma TakeU64Written(x: u64, rest: Bytes)
    ensures TakeU64(LeBytes(x, 8) + rest) == Parsed(x, rest)
  {
    var d := LeBytes(x, 8) + rest;
    Pow256Of8();
    LeRoundTrip(x, 8);
    assert d[..8] == LeBytes(x, 8) && d[8..] == rest;
  }

  lemma TakeU32Written(x: u32, rest: Bytes)
    ensures TakeU32(LeBytes(x, 4) + rest) == Parsed(x, rest)
  {
    var d := LeBytes(x, 4) + rest;
    Pow256Of4();
    LeRoundTrip(x, 4);
    assert d[..4] == LeBytes(x, 4) && d[4..] == rest;
  }

  lemma TakeBoolWritten(b: bool, rest: Bytes)
    ensures TakeBool(BoolBytes(b) + rest) == Parsed(b, rest)
  {
    assert (BoolBytes(b) + rest)[1..] == rest;
  }

  lemma TakeKeyWritten(k: Key, rest: Bytes)
    ensures TakeKey(KeyBytes(k) + rest) == Parsed(k, rest)
  {
    var d := KeyBytes(k) + rest;
    assert d[0] == K(k, 0);
    assert d[..32] == KeyBytes(k) && d[32..] == rest;
  }

  lemma TakeBlobWritten(blob: Bytes, rest: Bytes)
    requires |blob| < 0x1_0000_0000
    ensures TakeBlob(BlobBytes(blob) + rest) == Parsed(blob, rest)
  {
    TakeU32Written(|blob|, blob + rest);
    assert BlobBytes(blob) + rest == LeBytes(|blob|, 4) + (blob + rest);
    assert (blob + rest)[..|blob|] == blob && (blob + rest)[|blob|..] == rest;
  }

  lemma {:induction false} TakeBlobsWritten(blobs: seq<Bytes>, rest: Bytes)
    requires forall b :: b in blobs ==> |b| < 0x1_0000_0000
    ensures TakeBlobs(|blobs|, BlobsBytes(blobs) + rest) == Parsed(blobs, rest)
  {
    hide TakeBlob, BlobBytes;
    if blobs == [] {
      assert BlobsBytes(blobs) + rest == rest;
    } else {
      var tail := BlobsBytes(blobs[1..]) + rest;
      TakeBlobWritten(blobs[0], tail);
      TakeBlobsWritten(blobs[1..], rest);
      assert BlobsBytes(blobs) + rest == BlobBytes(blobs[0]) + tail;
      assert [blobs[0]] + blobs[1..] == blobs;
    }
  }

  lemma {:induction false} TakeKeysWritten(keys: seq<Key>, rest: Bytes)
    ensures TakeKeys(|keys|, KeysBytes(keys) + rest) == Parsed(keys, rest)
  {
    hide TakeKey, KeyBytes;
    if keys == [] {
      assert KeysBytes(keys) + rest == rest;
    } else {
      var tail := KeysBytes(keys[1..]) + rest;
      TakeKeyWritten(keys[0], tail);
      TakeKeysWritten(keys[1..], rest);
      assert KeysBytes(keys) + rest == KeyBytes(keys[0]) + tail;
      assert [keys[0]] + keys[1..] == keys;
    }
  }
}
