/** The stored credential format `pbkdf2_sha256$<salt>$<digest>` and its two
    operations (app.py, `hash_password` and `verify_password`). The key
    derivation itself is a parameter: `kdf(password, salt)` is the hex digest,
    or None where the derivation raises. In `verify_password` that exception
    is caught and gives false (a salt field that is not hex is one way there);
    in `hash_password` nothing catches it, and `HashPassword`'s None stands
    for that uncaught failure. */
module Credentials {
  import opened Wrappers

  /** The scheme tag of every credential this code writes. */
  const Algorithm: string := "pbkdf2_sha256"

  /** The field separator. */
  const Sep: char := '$'

  /** The key derivation: hex digest of a password under a hex salt. */
  type Kdf = (string, string) -> Option<string>

  /** The number of occurrences of `c` in `s`. */
  function Count(s: string, c: char): nat {
    if s == [] then 0 else (if s[0] == c then 1 else 0) + Count(s[1..], c)
  }

  /** No occurrence is a count of zero. */
  lemma {:induction false} CountZero(s: string, c: char)
    ensures Count(s, c) == 0 <==> c !in s
  {
    if s != [] {
      CountZero(s[1..], c);
      assert s == [s[0]] + s[1..];
    }
  }

  /** Counting is additive over concatenation. */
  lemma {:induction false} CountAppend(a: string, b: string, c: char)
    ensures Count(a + b, c) == Count(a, c) + Count(b, c)
  {
    if a == [] {
      assert a + b == b;
    } else {
      assert (a + b)[0] == a[0];
      assert (a + b)[1..] == a[1..] + b;
      CountAppend(a[1..], b, c);
    }
  }

  /** The count around one character. */
  lemma CountAround(a: string, x: char, t: string, c: char)
    ensures Count(a + [x] + t, c) == Count(a, c) + (if x == c then 1 else 0) + Count(t, c)
  {
    CountAppend(a + [x], t, c);
    CountAppend(a, [x], c);
    assert [x][1..] == [];
  }

  /** The position of the first `c` in `s`. */
  function IndexOf(s: string, c: char): (k: nat)
    requires Count(s, c) > 0
    ensures k < |s| && s[k] == c && Count(s[..k], c) == 0
  {
    if s[0] == c then 0
    else
      var k := 1 + IndexOf(s[1..], c);
      assert s[..k] == [s[0]] + s[1..][..k - 1];
      assert s[..k][1..] == s[1..][..k - 1];
      k
  }

  /** A string is its part before position `k`, the character there and the
      part after. */
  lemma Around(s: string, k: nat)
    requires k < |s|
    ensures s == s[..k] + [s[k]] + s[k + 1..]
  {
  }

  /** Past the first `c` there is one `c` fewer. */
  lemma CountAfterFirst(s: string, c: char)
    requires Count(s, c) > 0
    ensures Count(s[IndexOf(s, c) + 1..], c) == Count(s, c) - 1
  {
    var k := IndexOf(s, c);
    Around(s, k);
    CountAround(s[..k], c, s[k + 1..], c);
  }

  /** The smaller of two naturals. */
  function Min(a: nat, b: nat): nat {
    if a <= b then a else b
  }

  /** Parts joined back together with `c` between them. */
  function Join(parts: seq<string>, c: char): string
    requires |parts| >= 1
  {
    if |parts| == 1 then parts[0] else parts[0] + [c] + Join(parts[1..], c)
  }

  lemma JoinCons(a: string, rest: seq<string>, c: char)
    requires |rest| >= 1
    ensures Join([a] + rest, c) == a + [c] + Join(rest, c)
  {
    assert ([a] + rest)[1..] == rest;
  }

  lemma JoinThree(x: string, y: string, z: string, c: char)
    ensures Join([x, y, z], c) == x + [c] + y + [c] + z
  {
    assert [x, y, z][1..] == [y, z];
    assert [y, z][1..] == [z];
    assert Join([y, z], c) == y + [c] + z;
  }

  /** Python's `s.split(c, maxsplit)`: cut at the first `maxsplit` occurrences
      of `c`, leaving the rest, separators and all, in the last part. */
  function Split(s: string, c: char, maxsplit: nat): (parts: seq<string>)
    ensures |parts| >= 1
    decreases |s|
  {
    if maxsplit == 0 || Count(s, c) == 0 then [s]
    else [s[..IndexOf(s, c)]] + Split(s[IndexOf(s, c) + 1..], c, maxsplit - 1)
  }

  /** Every part but the last is free of `c`. */
  predicate FieldsFree(parts: seq<string>, c: char) {
    |parts| <= 1 || (Count(parts[0], c) == 0 && FieldsFree(parts[1..], c))
  }

  /** Every part of a split but the last is free of the separator. */
  lemma {:induction false} SplitFieldsFree(s: string, c: char, maxsplit: nat)
    ensures FieldsFree(Split(s, c, maxsplit), c)
    decreases |s|
  {
    if maxsplit != 0 && Count(s, c) != 0 {
      var k := IndexOf(s, c);
      var rest := Split(s[k + 1..], c, maxsplit - 1);
      SplitFieldsFree(s[k + 1..], c, maxsplit - 1);
      var parts := [s[..k]] + rest;
      assert Split(s, c, maxsplit) == parts;
      assert parts[1..] == rest;
    }
  }

  /** Joining the parts of a split with the separator gives the string back. */
  lemma {:induction false} SplitJoinsBack(s: string, c: char, maxsplit: nat)
    ensures Join(Split(s, c, maxsplit), c) == s
    decreases |s|
  {
    if maxsplit != 0 && Count(s, c) != 0 {
      var k := IndexOf(s, c);
      var head, tail := s[..k], s[k + 1..];
      var rest := Split(tail, c, maxsplit - 1);
      calc {
        Join(Split(s, c, maxsplit), c);
        Join([head] + rest, c);
        { JoinCons(head, rest, c); }
        head + [c] + Join(rest, c);
        { SplitJoinsBack(tail, c, maxsplit - 1); }
        head + [c] + tail;
        { Around(s, k); }
        s;
      }
    }
  }

  /** Split makes one cut per separator, up to `maxsplit` cuts. */
  lemma {:induction false} SplitCount(s: string, c: char, maxsplit: nat)
    ensures |Split(s, c, maxsplit)| == 1 + Min(Count(s, c), maxsplit)
    decreases |s|
  {
    if maxsplit != 0 && Count(s, c) != 0 {
      var k := IndexOf(s, c);
      SplitCount(s[k + 1..], c, maxsplit - 1);
      CountAfterFirst(s, c);
    }
  }

  /** The first separator of `a + [c] + t` is the one after `a` when `a` has
      none. */
  lemma {:induction false} IndexOfAfter(a: string, t: string, c: char)
    requires Count(a, c) == 0
    ensures Count(a + [c] + t, c) > 0
    ensures IndexOf(a + [c] + t, c) == |a|
  {
    CountAround(a, c, t, c);
    if a != [] {
      var s := a + [c] + t;
      assert s[0] == a[0];
      assert s[1..] == a[1..] + [c] + t;
      IndexOfAfter(a[1..], t, c);
    }
  }

  /** Splitting `a + [c] + t`, with `a` free of `c`, cuts after `a`. */
  lemma SplitAfter(a: string, t: string, c: char, maxsplit: nat)
    requires Count(a, c) == 0 && maxsplit >= 1
    ensures Split(a + [c] + t, c, maxsplit) == [a] + Split(t, c, maxsplit - 1)
  {
    var s := a + [c] + t;
    IndexOfAfter(a, t, c);
    assert s[..|a|] == a;
    assert s[|a| + 1..] == t;
  }

  /** `verify_password`: the stored string must split into exactly three
      `$`-separated fields (the digest field keeps any further `$`), the first
      must be the scheme tag, and the digest of `password` under the salt
      field must equal the digest field; anything else, a failing derivation
      included, is a rejection. */
  function VerifyPassword(stored: string, password: string, kdf: Kdf): (ok: bool)
    ensures ok ==> Count(stored, Sep) >= 2
    ensures ok ==> Algorithm + [Sep] <= stored
  {
    var parts := Split(stored, Sep, 2);
    if |parts| != 3 then false
    else if parts[0] != Algorithm then false
    else
      ThreeFields(stored);
      kdf(password, parts[1]) == Some(parts[2])
  }

  /** A string that splits into three fields has two separators and starts
      with its first field and a separator. */
  lemma ThreeFields(stored: string)
    requires |Split(stored, Sep, 2)| == 3
    ensures Count(stored, Sep) >= 2
    ensures Split(stored, Sep, 2)[0] + [Sep] <= stored
  {
    var parts := Split(stored, Sep, 2);
    SplitJoinsBack(stored, Sep, 2);
    SplitCount(stored, Sep, 2);
    JoinThree(parts[0], parts[1], parts[2], Sep);
    assert parts == [parts[0], parts[1], parts[2]];
    assert stored == (parts[0] + [Sep]) + (parts[1] + [Sep] + parts[2]);
  }

  /** The characters `secrets.token_hex` draws from. */
  predicate IsHexDigit(ch: char) {
    '0' <= ch <= '9' || 'a' <= ch <= 'f'
  }

  /** `secrets.token_hex(16)`: 32 lower-case hex digits. */
  predicate IsTokenHex(salt: string) {
    |salt| == 32 && forall i :: 0 <= i < |salt| ==> IsHexDigit(salt[i])
  }

  /** A salt of hex digits holds no separator. */
  lemma TokenHexSepFree(salt: string)
    requires IsTokenHex(salt)
    ensures Sep !in salt
  {
    assert forall i :: 0 <= i < |salt| ==> salt[i] != Sep;
  }

  /** A credential whose tag and salt are `$`-free splits back into its three
      fields. */
  lemma CredentialSplits(tag: string, salt: string, digest: string)
    requires Sep !in tag && Sep !in salt
    ensures Split(tag + [Sep] + salt + [Sep] + digest, Sep, 2) == [tag, salt, digest]
  {
    CountZero(tag, Sep);
    CountZero(salt, Sep);
    var rest := salt + [Sep] + digest;
    assert tag + [Sep] + salt + [Sep] + digest == tag + [Sep] + rest;
    SplitAfter(tag, rest, Sep, 2);
    SplitAfter(salt, digest, Sep, 1);
    assert Split(digest, Sep, 0) == [digest];
  }

  /** `hash_password` with the random salt given: the credential string, or
      None where the derivation fails. The result parses back into the tag,
      the salt and the digest. */
  function HashPassword(password: string, salt: string, kdf: Kdf): (stored: Option<string>)
    requires IsTokenHex(salt)
    ensures stored.Some? <==> kdf(password, salt).Some?
    ensures stored.Some? ==> Split(stored.value, Sep, 2) == [Algorithm, salt, kdf(password, salt).value]
  {
    match kdf(password, salt)
    case None => None
    case Some(digest) =>
      TokenHexSepFree(salt);
      CredentialSplits(Algorithm, salt, digest);
      Some(Algorithm + [Sep] + salt + [Sep] + digest)
  }

  /** A well-formed credential with a `$`-free salt accepts exactly the
      passwords whose digest under that salt is the stored digest. */
  lemma VerifyWellFormed(salt: string, digest: string, password: string, kdf: Kdf)
    requires Sep !in salt
    ensures VerifyPassword(Algorithm + [Sep] + salt + [Sep] + digest, password, kdf)
        <==> kdf(password, salt) == Some(digest)
  {
    CredentialSplits(Algorithm, salt, digest);
  }

  /** A credential made by `hash_password` accepts the password it was made
      from, and any other password exactly when that password derives the same
      digest under the same salt. */
  lemma HashThenVerify(password: string, other: string, salt: string, kdf: Kdf)
    requires IsTokenHex(salt)
    requires kdf(password, salt).Some?
    ensures HashPassword(password, salt, kdf).Some?
    ensures VerifyPassword(HashPassword(password, salt, kdf).value, password, kdf)
    ensures VerifyPassword(HashPassword(password, salt, kdf).value, other, kdf)
        <==> kdf(other, salt) == kdf(password, salt)
  {
    var stored := HashPassword(password, salt, kdf).value;
    assert Split(stored, Sep, 2) == [Algorithm, salt, kdf(password, salt).value];
  }

  /** A credential under another scheme tag is rejected whatever the password. */
  lemma OtherSchemeRejected(tag: string, salt: string, digest: string, password: string, kdf: Kdf)
    requires tag != Algorithm
    requires Sep !in tag && Sep !in salt
    ensures !VerifyPassword(tag + [Sep] + salt + [Sep] + digest, password, kdf)
  {
    CredentialSplits(tag, salt, digest);
  }
}
