/**
 * A cipher and two environments in which an envelope cannot be opened by its own application, showing that the conditions of
 * the round trips are not idle and that what they assume of the cipher can be had.
 */
module VaultWitnesses {
  import opened Common
  import opened Vault

  /** A cipher that spells the key out before the text: [1, k] for each key byte, then [0]. */
  function Tagged(k: Bytes, p: Bytes): Bytes {
    if k == [] then [0] + p else [1, k[0]] + Tagged(k[1..], p)
  }

  function Untagged(k: Bytes, c: Bytes): Option<Bytes> {
    if k == [] then if c != [] && c[0] == 0 then Some(c[1..]) else None
    else if |c| >= 2 && c[0] == 1 && c[1] == k[0] then Untagged(k[1..], c[2..])
    else None
  }

  /** The key used opens it, and no other does. */
  lemma {:induction false} OnlyItsKey(k: Bytes, k': Bytes, p: Bytes)
    ensures Untagged(k', Tagged(k, p)) == if k' == k then Some(p) else None
  {
    var c := Tagged(k, p);
    if k == [] {
      assert c[1..] == p;
    } else if k' != [] {
      assert c[2..] == Tagged(k[1..], p);
      OnlyItsKey(k[1..], k'[1..], p);
      assert k == [k[0]] + k[1..] && k' == [k'[0]] + k'[1..];
    }
  }

  const TAG: Bytes := seq(16, _ => 0)
  const KEY: Bytes := seq(32, _ => 7)

  function Encode(s: string): Bytes { seq(|s|, i requires 0 <= i < |s| => s[i] as int % 256) }

  function Decode(b: Bytes): string { seq(|b|, i requires 0 <= i < |b| => b[i] as char) }

  /** Transit here wraps the one data key as the name it was generated under. */
  function Toy(): Services {
    Services((k, iv, p) => (Tagged(k, p), TAG), (k, iv, tag, c) => Untagged(k, c),
             (name, wrapped) => if wrapped == name then Some(KEY) else None, s => Encode(s), b => Decode(b))
  }

  lemma ToyCipher()
    ensures Opens(Toy()) && Rejects(Toy())
  {
    var v := Toy();
    forall k, iv, p ensures v.open(k, iv, v.seal(k, iv, p).1, v.seal(k, iv, p).0) == Some(p) {
      OnlyItsKey(k, k, p);
    }
    forall k, k', iv, p | k != k' ensures v.open(k', iv, v.seal(k, iv, p).1, v.seal(k, iv, p).0) == None {
      OnlyItsKey(k, k', p);
    }
  }

  lemma Latin(s: string)
    requires forall i :: 0 <= i < |s| ==> s[i] as int < 256
    ensures WellFormed(Toy(), s)
  {
    assert Decode(Encode(s)) == s;
  }

  const ORDERS := DataKey(KEY, "orders")

  lemma OrdersKey()
    ensures GeneratedUnder(Toy(), "orders", ORDERS)
  {
    Latin("orders");
  }

  /** One environment, in vault mode, whose column key is not the name its data keys are generated under. */
  const SPLIT := Env(Some("true"), Some("token"), Some("orders"), Some("columns"), None)

  /** What this application writes, it cannot read back. */
  lemma OwnEnvelopeUnreadable(iv: Bytes)
    requires |iv| == 16
    ensures Opens(Toy()) && Rejects(Toy()) && WellFormed(Toy(), "text") && GeneratedUnder(Toy(), TransitKeyName(SPLIT), ORDERS)
    ensures Encrypt(Toy(), SPLIT, "text", iv, Some(ORDERS)).Success?
    ensures Decrypt(Toy(), SPLIT, Encrypt(Toy(), SPLIT, "text", iv, Some(ORDERS)).value) != Success("text")
  {
    ToyCipher();
    Latin("text");
    OrdersKey();
    SealFails(Toy(), VERSION_VAULT, KEY, Encode("orders"), iv, "text");
    VaultRoundTrip(Toy(), SPLIT, SPLIT, "text", iv, ORDERS);
  }

  const LOCAL := Env(None, None, None, None, Some(seq(64, _ => '0')))

  /** The same application once vault mode is switched on and VAULT_LOCAL_KEY dropped. */
  const SWITCHED := Env(Some("true"), Some("token"), None, None, None)

  /** What was written in local mode cannot be read after the switch. */
  lemma LocalEnvelopeLost(iv: Bytes)
    requires |iv| == 16
    ensures Opens(Toy()) && Rejects(Toy()) && WellFormed(Toy(), "text")
    ensures Encrypt(Toy(), LOCAL, "text", iv, None).Success?
    ensures Decrypt(Toy(), SWITCHED, Encrypt(Toy(), LOCAL, "text", iv, None).value) != Success("text")
  {
    ToyCipher();
    Latin("text");
    var key := LocalKey(LOCAL).value;
    SealFails(Toy(), VERSION_LOCAL, key, key, iv, "text");
    LocalRoundTrip(Toy(), LOCAL, SWITCHED, "text", iv, None);
  }
}
