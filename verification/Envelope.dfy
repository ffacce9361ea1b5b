/**
 Sealing and opening one message (internal/cmek/envelope.go) over an ideal AEAD, and the bytes that bind a
 ciphertext to its tenant, message and DEK.
 */
module Envelope {
  import opened Prelude

  type byte = x: int | 0 <= x < 256
  type Bytes = seq<byte>

  /** The identity of a data key; the ideal cipher opens under exactly the key and associated data it was made with. */
  type Key = nat

  datatype Cipher = Cipher(key: Key, aad: Bytes, plaintext: Bytes)

  function Decrypt(k: Key, c: Cipher, aad: Bytes): Option<Bytes> {
    if c.key == k && c.aad == aad then Some(c.plaintext) else None
  }

  /** A DEK id "<tenant>/<n>". */
  datatype DekId = DekId(tenant: Bytes, n: nat)

  const SLASH: byte := 47

  function Itoa(n: nat): (r: Bytes)
    ensures |r| > 0 && forall i | 0 <= i < |r| :: 48 <= r[i] < 58
  {
    if n < 10 then [48 + n] else Itoa(n / 10) + [48 + n % 10]
  }

  function Render(d: DekId): Bytes {
    d.tenant + [SLASH] + Itoa(d.n)
  }

  /** binary.BigEndian.AppendUint64 of the low k bytes. */
  function BigEndian(v: nat, k: nat): (r: Bytes)
    ensures |r| == k
  {
    if k == 0 then [] else BigEndian(v / 256, k - 1) + [v % 256]
  }

  function Pow256(k: nat): (p: nat)
    ensures p > 0
  {
    if k == 0 then 1 else 256 * Pow256(k - 1)
  }

  const TWO64 := 0x1_0000_0000_0000_0000

  predicate IsInt64(x: int) { -0x8000_0000_0000_0000 <= x < 0x8000_0000_0000_0000 }

  /** aad: tenant | msgID (uint64, big endian) | dekID. */
  function Aad(tenant: Bytes, msgID: int, dek: DekId): Bytes {
    tenant + BigEndian(msgID % TWO64, 8) + Render(dek)
  }

  // ---- The encoding keeps its three parts apart ----

  lemma {:induction false} ItoaInjective(m: nat, n: nat)
    requires Itoa(m) == Itoa(n)
    ensures m == n
  {
    var a, b := Itoa(m), Itoa(n);
    if m >= 10 && n >= 10 {
      assert a[..|a| - 1] == Itoa(m / 10) && b[..|b| - 1] == Itoa(n / 10);
      ItoaInjective(m / 10, n / 10);
      assert a[|a| - 1] == 48 + m % 10 && b[|b| - 1] == 48 + n % 10;
    } else {
      assert m >= 10 ==> |a| >= 2;
      assert n >= 10 ==> |b| >= 2;
      assert a[0] == b[0];
    }
  }

  /** Ids of any two DEKs differ, also across tenants: the last slash splits them. */
  lemma RenderInjective(d: DekId, e: DekId)
    requires Render(d) == Render(e)
    ensures d == e
  {
    var s := Render(d);
    var i, j := |d.tenant|, |e.tenant|;
    LastSlash(d, s);
    LastSlash(e, s);
    assert i == j;
    assert s[..i] == d.tenant && s[..j] == e.tenant;
    assert s[i + 1..] == Itoa(d.n) && s[j + 1..] == Itoa(e.n);
    ItoaInjective(d.n, e.n);
  }

  /** The slash in front of the number is the last one. */
  lemma LastSlash(d: DekId, s: Bytes)
    requires s == Render(d)
    ensures s[|d.tenant|] == SLASH && forall p | |d.tenant| < p < |s| :: s[p] != SLASH
  {
    forall p | |d.tenant| < p < |s| ensures s[p] != SLASH {
      assert s[p] == Itoa(d.n)[p - |d.tenant| - 1];
    }
  }

  lemma {:induction false} BigEndianInjective(v: nat, w: nat, k: nat)
    requires v < Pow256(k) && w < Pow256(k) && BigEndian(v, k) == BigEndian(w, k)
    ensures v == w
  {
    if k > 0 {
      var a, b := BigEndian(v, k), BigEndian(w, k);
      assert a[..k - 1] == BigEndian(v / 256, k - 1) && b[..k - 1] == BigEndian(w / 256, k - 1);
      assert a[k - 1] == v % 256 && b[k - 1] == w % 256;
      BigEndianInjective(v / 256, w / 256, k - 1);
    }
  }

  /** Reading bytes back, most significant first, in a base. */
  function ReadDigits(s: Bytes, base: nat, zero: nat): int {
    if s == [] then 0 else ReadDigits(s[..|s| - 1], base, zero) * base + (s[|s| - 1] - zero)
  }

  lemma {:induction false} ItoaReads(n: nat)
    ensures ReadDigits(Itoa(n), 10, 48) == n && (n > 0 ==> Itoa(n)[0] != 48)
  {
    if n >= 10 {
      ItoaReads(n / 10);
      assert Itoa(n)[..|Itoa(n)| - 1] == Itoa(n / 10);
    } else {
      assert Itoa(n)[..0] == [];
    }
  }

  lemma {:induction false} BigEndianReads(v: nat, k: nat)
    requires v < Pow256(k)
    ensures ReadDigits(BigEndian(v, k), 256, 0) == v
  {
    if k > 0 {
      BigEndianReads(v / 256, k - 1);
      assert BigEndian(v, k)[..k - 1] == BigEndian(v / 256, k - 1);
    }
  }

  lemma EightBytes()
    ensures Pow256(8) == TWO64
  {
    assert Pow256(4) == 0x1_0000_0000;
    assert Pow256(6) == 0x1_0000_0000_0000;
  }

  lemma Wrapped(x: int, y: int)
    requires IsInt64(x) && IsInt64(y) && x % TWO64 == y % TWO64
    ensures x == y
  {
  }

  /**
   The associated data read back: the tenant, then eight bytes that are the id as an unsigned number, then the DEK's tenant,
   a slash and its number in decimal.
   */
  lemma AadReads(t: Bytes, m: int, d: DekId)
    requires IsInt64(m)
    ensures var a := Aad(t, m, d); var k := |t| + 8 + |d.tenant|;
            && |a| > k + 1 && a[..|t|] == t && a[|t| + 8..k] == d.tenant && a[k] == SLASH
            && ReadDigits(a[|t|..|t| + 8], 256, 0) == (if m < 0 then m + TWO64 else m)
            && ReadDigits(a[k + 1..], 10, 48) == d.n
  {
    var a := Aad(t, m, d);
    EightBytes();
    BigEndianReads(m % TWO64, 8);
    ItoaReads(d.n);
    assert a[|t|..|t| + 8] == BigEndian(m % TWO64, 8);
    assert a[|t| + 8 + |d.tenant| + 1..] == Itoa(d.n);
    assert m % TWO64 == if m < 0 then m + TWO64 else m;
  }

  /** With tenant ids of one length the parts cannot slide. */
  lemma AadInjectiveSameLength(t: Bytes, m: int, d: DekId, t': Bytes, m': int, d': DekId)
    requires |t| == |t'| && IsInt64(m) && IsInt64(m')
    requires Aad(t, m, d) == Aad(t', m', d')
    ensures t == t' && m == m' && d == d'
  {
    var a := Aad(t, m, d);
    var k := |t|;
    assert a[..k] == t && a[..k] == t';
    assert a[k..k + 8] == BigEndian(m % TWO64, 8) && a[k..k + 8] == BigEndian(m' % TWO64, 8);
    assert a[k + 8..] == Render(d) && a[k + 8..] == Render(d');
    EightBytes();
    BigEndianInjective(m % TWO64, m' % TWO64, 8);
    Wrapped(m, m');
    RenderInjective(d, d');
  }

  /**
   The associated data names exactly one message: a tenant sealing under its own DEKs never shares it with any other
   (tenant, message, DEK), whatever the lengths of the tenant ids.
   */
  lemma AadInjective(t: Bytes, m: int, n: nat, t': Bytes, m': int, n': nat)
    requires IsInt64(m) && IsInt64(m')
    requires Aad(t, m, DekId(t, n)) == Aad(t', m', DekId(t', n'))
    ensures t == t' && m == m' && n == n'
  {
    var a := Aad(t, m, DekId(t, n));
    TailOfAad(t, m, DekId(t, n), a);
    TailOfAad(t', m', DekId(t', n'), a);
    var i, j := 2 * |t| + 8, 2 * |t'| + 8;
    assert i == j;
    AadInjectiveSameLength(t, m, DekId(t, n), t', m', DekId(t', n'));
  }

  lemma TailOfAad(t: Bytes, m: int, d: DekId, a: Bytes)
    requires a == Aad(t, m, d)
    ensures var i := |t| + 8 + |d.tenant|;
            i < |a| && a[i] == SLASH && forall p | i < p < |a| :: a[p] != SLASH
  {
    var s := Render(d);
    LastSlash(d, s);
    assert a[|t| + 8..] == s;
    forall p | |t| + 8 + |d.tenant| < p < |a| ensures a[p] != SLASH {
      assert a[p] == s[p - |t| - 8];
    }
  }

  // ---- Seal and Open ----

  datatype Handle = Handle(dek: DekId, validUntil: int, prim: Option<Key>)

  datatype Envelope = Envelope(dek: DekId, ciphertext: Cipher)

  datatype Error = LeaseExpired | DekCold | Poison

  datatype Result<+T> = Ok(value: T) | Err(error: Error)

  function Seal(h: Handle, now: int, tenant: Bytes, msgID: int, plaintext: Bytes): Result<Envelope> {
    if now >= h.validUntil then Err(LeaseExpired)
    else if h.prim.None? then Err(DekCold)
    else Ok(Envelope(h.dek, Cipher(h.prim.value, Aad(tenant, msgID, h.dek), plaintext)))
  }

  function Open(h: Handle, now: int, tenant: Bytes, msgID: int, env: Envelope): Result<Bytes> {
    if now >= h.validUntil then Err(LeaseExpired)
    else if h.dek != env.dek then Err(Poison)
    else if h.prim.None? then Err(DekCold)
    else match Decrypt(h.prim.value, env.ciphertext, Aad(tenant, msgID, env.dek))
      case Some(pt) => Ok(pt)
      case None => Err(Poison)
  }

  /** Seal's answers, each exactly. */
  lemma SealsExactly(h: Handle, now: int, tenant: Bytes, msgID: int, plaintext: Bytes)
    ensures var r := Seal(h, now, tenant, msgID, plaintext);
            && (r.Ok? <==> now < h.validUntil && h.prim.Some?)
            && (r == Err(LeaseExpired) <==> h.validUntil <= now)
            && (r == Err(DekCold) <==> now < h.validUntil && h.prim.None?)
            && (r.Ok? ==> r.value.dek == h.dek)
  {
  }

  /** Under the handle's key with these associated data, what the ciphertext holds. */
  predicate Fits(h: Handle, c: Cipher, tenant: Bytes, msgID: int) {
    h.prim == Some(c.key) && c.aad == Aad(tenant, msgID, h.dek)
  }

  /** Open's answers, each exactly: the lease first, then the DEK's id, then a cold key, then the cipher. */
  lemma OpensExactly(h: Handle, now: int, tenant: Bytes, msgID: int, env: Envelope)
    ensures var r, own := Open(h, now, tenant, msgID, env), now < h.validUntil && h.dek == env.dek;
            && (r.Ok? <==> own && Fits(h, env.ciphertext, tenant, msgID))
            && (r.Ok? ==> r.value == env.ciphertext.plaintext)
            && (r == Err(LeaseExpired) <==> h.validUntil <= now)
            && (r == Err(DekCold) <==> own && h.prim.None?)
  {
  }

  /**
   What was sealed opens, for an unexpired handle on the same DEK with the same key, under exactly the tenant and
   message it was sealed for, to exactly the plaintext; under any other tenant or message id it is poison.
   */
  lemma OpensOnlyItsOwn(h: Handle, t0: int, tenant: Bytes, msgID: int, pt: Bytes,
                        g: Handle, t1: int, tenant': Bytes, msgID': int, env: Envelope)
    requires Seal(h, t0, tenant, msgID, pt) == Ok(env)
    requires IsInt64(msgID) && IsInt64(msgID')
    requires t1 < g.validUntil && g.dek == h.dek && g.prim == h.prim
    ensures Open(g, t1, tenant', msgID', env) ==
              if tenant == tenant' && msgID == msgID' then Ok(pt) else Err(Poison)
  {
    if Aad(tenant, msgID, h.dek) == Aad(tenant', msgID', h.dek) {
      assert |Aad(tenant, msgID, h.dek)| == |tenant| + 8 + |Render(h.dek)|;
      assert |Aad(tenant', msgID', h.dek)| == |tenant'| + 8 + |Render(h.dek)|;
      AadInjectiveSameLength(tenant, msgID, h.dek, tenant', msgID', h.dek);
    }
  }

  /** A DEK of another tenant would not do: with foreign DEK ids the parts can slide into each other. */
  lemma ForeignDekSlides()
    ensures Aad([], 0, DekId([47], 0)) == Aad([0], 47, DekId([], 0))
  {
  }
}
