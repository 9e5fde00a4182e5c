/** The caller's identity, and the length-prefixed text its namespace is the hash of. */
module Principals {
  import opened Types

  datatype Principal = Principal(caller: Caller, subject: Option<string>, tenant: Option<string>,
                                 resource: Option<string>, client: Option<string>, scopes: seq<string>)

  const LIMIT: nat := 0x1_0000_0000_0000_0000

  /** The low eight bytes of n, most significant first. */
  function BigEndian(n: nat, width: nat): (r: string)
    ensures |r| == width
  {
    if width == 0 then "" else BigEndian(n / 256, width - 1) + [(n % 256) as char]
  }

  function FromBigEndian(s: string): nat {
    if s == "" then 0 else FromBigEndian(s[..|s| - 1]) * 256 + s[|s| - 1] as nat
  }

  function Power(width: nat): nat {
    if width == 0 then 1 else 256 * Power(width - 1)
  }

  lemma {:induction false} BigEndianRoundTrip(n: nat, width: nat)
    requires n < Power(width)
    ensures FromBigEndian(BigEndian(n, width)) == n
  {
    if width > 0 {
      BigEndianRoundTrip(n / 256, width - 1);
      var r := BigEndian(n, width);
      assert r[..|r| - 1] == BigEndian(n / 256, width - 1);
    }
  }

  lemma EightBytes()
    ensures Power(8) == LIMIT
  {
    assert Power(4) == 0x1_0000_0000;
    assert Power(5) == 256 * Power(4);
    assert Power(6) == 256 * Power(5);
    assert Power(7) == 256 * Power(6);
  }

  function CallerName(c: Caller): string {
    match c
    case HumanCli => "HumanCli"
    case AgentCli => "AgentCli"
    case Mcp => "Mcp"
  }

  /** The five strings that make an identity; an absent one reads as the empty string. */
  function Identity(p: Principal): (r: seq<string>)
    ensures |r| == 5
  {
    [CallerName(p.caller), p.tenant.GetOr(""), p.resource.GetOr(""), p.subject.GetOr(""), p.client.GetOr("")]
  }

  /** A value behind its length. */
  function Framed(v: string): string {
    BigEndian(|v| % LIMIT, 8) + v
  }

  function Encode(values: seq<string>): string {
    if values == [] then "" else Encode(values[..|values| - 1]) + Framed(values[|values| - 1])
  }

  /** What the hasher is fed, value by value. */
  method Preimage(p: Principal) returns (fed: string)
    ensures fed == Encode(Identity(p))
  {
    var values := Identity(p);
    fed := "";
    for i := 0 to 5
      invariant fed == Encode(values[..i])
    {
      assert values[..i + 1][..i] == values[..i];
      Associate(fed, BigEndian(|values[i]| % LIMIT, 8), values[i]);
      fed := fed + BigEndian(|values[i]| % LIMIT, 8);
      fed := fed + values[i];
    }
    assert values[..5] == values;
  }

  /** Read one length-prefixed value off the front. */
  function Decode(s: string, count: nat): Option<seq<string>> {
    if count == 0 then (if s == "" then Some([]) else None)
    else if |s| < 8 then None
    else
      var n := FromBigEndian(s[..8]);
      if |s| < 8 + n then None
      else
        var rest := Decode(s[8 + n..], count - 1);
        if rest.None? then None else Some([s[8..8 + n]] + rest.value)
  }

  lemma {:induction false} EncodeFront(values: seq<string>)
    requires values != []
    ensures Encode(values) == Framed(values[0]) + Encode(values[1..])
  {
    hide Framed;
    var last := |values| - 1;
    if last == 0 {
      assert values[..0] == [] && values[1..] == [] && Encode([]) == "";
    } else {
      EncodeFront(values[..last]);
      assert values[..last][1..] == values[1..][..last - 1];
      assert values[1..][last - 1] == values[last];
      Associate(Framed(values[0]), Encode(values[1..][..last - 1]), Framed(values[last]));
    }
  }

  lemma Associate(a: string, b: string, c: string)
    ensures a + (b + c) == a + b + c
  {
  }

  lemma LengthField(n: nat)
    requires n < LIMIT
    ensures FromBigEndian(BigEndian(n % LIMIT, 8)) == n
  {
    hide BigEndian, FromBigEndian, Power;
    EightBytes();
    BigEndianRoundTrip(n, 8);
  }

  lemma DecodeParts(length: string, v: string, rest: string, count: nat)
    requires |length| == 8 && FromBigEndian(length) == |v|
    ensures Decode(length + v + rest, count + 1) == if Decode(rest, count).None? then None
            else Some([v] + Decode(rest, count).value)
  {
    hide FromBigEndian;
    FramedParts(length, v, rest);
  }

  lemma DecodeFramed(v: string, rest: string, count: nat)
    requires |v| < LIMIT
    ensures Decode(Framed(v) + rest, count + 1) == if Decode(rest, count).None? then None
            else Some([v] + Decode(rest, count).value)
  {
    hide BigEndian, FromBigEndian, Decode;
    LengthField(|v|);
    DecodeParts(BigEndian(|v| % LIMIT, 8), v, rest, count);
  }

  lemma FramedParts(length: string, v: string, rest: string)
    requires |length| == 8
    ensures var s := length + v + rest; s[..8] == length && s[8..8 + |v|] == v && s[8 + |v|..] == rest
  {
  }

  /** The encoding is uniquely readable, for strings no longer than a 64-bit length can say. */
  lemma {:induction false} DecodeEncode(values: seq<string>)
    requires forall i :: 0 <= i < |values| ==> |values[i]| < LIMIT
    ensures Decode(Encode(values), |values|) == Some(values)
  {
    if values != [] {
      hide Decode, Encode, Framed;
      EncodeFront(values);
      DecodeEncode(values[1..]);
      DecodeFramed(values[0], Encode(values[1..]), |values| - 1);
      assert values == [values[0]] + values[1..];
    }
  }

  predicate Representable(p: Principal) {
    forall i :: 0 <= i < 5 ==> |Identity(p)[i]| < LIMIT
  }

  /**
   * Two principals share a namespace text exactly when they share caller type, tenant, resource, subject and client.
   */
  lemma NamespaceSeparates(p: Principal, q: Principal)
    requires Representable(p) && Representable(q)
    ensures Encode(Identity(p)) == Encode(Identity(q)) <==>
            p.caller == q.caller && p.tenant.GetOr("") == q.tenant.GetOr("")
              && p.resource.GetOr("") == q.resource.GetOr("")
            && p.subject.GetOr("") == q.subject.GetOr("") && p.client.GetOr("") == q.client.GetOr("")
  {
    DecodeEncode(Identity(p));
    DecodeEncode(Identity(q));
    if Encode(Identity(p)) == Encode(Identity(q)) {
      assert forall i :: 0 <= i < 5 ==> Identity(p)[i] == Identity(q)[i];
      assert Identity(p)[0] == Identity(q)[0] && Identity(p)[1] == Identity(q)[1] && Identity(p)[2] == Identity(q)[2]
             && Identity(p)[3] == Identity(q)[3] && Identity(p)[4] == Identity(q)[4];
    }
  }
}
