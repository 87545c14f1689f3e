/** What an operator signs: registrations and heartbeats, each under its own domain. */
module SignedPayloads {
  import opened Prelude
  import opened MeshTypes
  import opened CodeUnits
  import opened CanonicalJson
  import opened CanonicalText
  import opened CanonicalMeaning

  const REGISTRATION_DOMAIN: string := "x402-mesh/node-registration/v1"
  const HEARTBEAT_DOMAIN: string := "x402-mesh/node-heartbeat/v1"

  const NEWLINE: CodeUnit := 10

  datatype SignError = UnknownNetwork | NotSerializable

  /** The SDK's network normalizer; `None` when it refuses the network. */
  type Normalizer = Text -> Option<Text>

  function ProjectCapability(c: Capability<Text>): Value {
    Obj([(Ascii("model"), Str(c.model)),
         (Ascii("contextWindow"), Number(c.contextWindow)),
         (Ascii("pricePer1kTokensUsdc"), Str(c.pricePer1kTokensUsdc))]
        + (if c.quantization.Some? then [(Ascii("quantization"), Str(c.quantization.value))] else []))
  }

  function ProjectCapabilities(cs: seq<Capability<Text>>): (r: seq<Value>)
    ensures |r| == |cs| && forall i | 0 <= i < |cs| :: r[i] == ProjectCapability(cs[i])
  {
    seq(|cs|, i requires 0 <= i < |cs| => ProjectCapability(cs[i]))
  }

  function ProjectRegistration(r: Registration<Text>, network: Text): seq<(Text, Value)> {
    [(Ascii("nodeId"), Str(r.nodeId)),
     (Ascii("operatorAddress"), Str(r.operatorAddress)),
     (Ascii("endpoint"), Str(r.endpoint)),
     (Ascii("capabilities"), Arr(ProjectCapabilities(r.capabilities))),
     (Ascii("network"), Str(network)),
     (Ascii("version"), Str(r.version)),
     (Ascii("timestamp"), Number(r.timestamp)),
     (Ascii("nonce"), Str(r.nonce))]
  }

  function ProjectHeartbeat(h: Heartbeat<Text>): seq<(Text, Value)> {
    [(Ascii("nodeId"), Str(h.nodeId)),
     (Ascii("healthy"), Bool(h.healthy)),
     (Ascii("inFlight"), Number(h.inFlight)),
     (Ascii("maxConcurrency"), Number(h.maxConcurrency)),
     (Ascii("version"), Str(h.version)),
     (Ascii("timestamp"), Number(h.timestamp)),
     (Ascii("nonce"), Str(h.nonce))]
  }

  /** The text whose UTF-8 bytes are signed. */
  function DomainSeparated(domain: Text, payload: Value): Result<Text, SignError> {
    match Canonical(payload)
    case Err(_) => Err(NotSerializable)
    case Ok(text) => Ok(domain + [NEWLINE] + text)
  }

  function RegistrationText(r: Registration<Text>, normalize: Normalizer): Result<Text, SignError> {
    match normalize(r.network)
    case None => Err(UnknownNetwork)
    case Some(network) => DomainSeparated(Ascii(REGISTRATION_DOMAIN), Obj(ProjectRegistration(r, network)))
  }

  function HeartbeatText(h: Heartbeat<Text>): Result<Text, SignError> {
    DomainSeparated(Ascii(HEARTBEAT_DOMAIN), Obj(ProjectHeartbeat(h)))
  }

  // ----- domains keep messages apart -----

  lemma {:induction false} CleanHasNoNewline(t: Text)
    requires Clean(t)
    ensures NEWLINE !in t
    decreases |t|
  {
    if t != [] {
      if StartsPair(t) {
        CleanHasNoNewline(t[2..]);
        assert t == [t[0], t[1]] + t[2..];
      } else {
        CleanHasNoNewline(t[1..]);
        assert t == [t[0]] + t[1..];
      }
    }
  }

  function NewlineAt(t: Text): nat {
    if t == [] || t[0] == NEWLINE then 0 else 1 + NewlineAt(t[1..])
  }

  lemma {:induction false} NewlineAfter(a: Text, x: Text)
    requires NEWLINE !in a
    ensures NewlineAt(a + [NEWLINE] + x) == |a|
  {
    if a == [] {
      assert (a + [NEWLINE] + x)[0] == NEWLINE;
    } else {
      assert (a + [NEWLINE] + x)[1..] == a[1..] + [NEWLINE] + x;
      NewlineAfter(a[1..], x);
    }
  }

  lemma {:induction false} FirstNewline(a: Text, x: Text, b: Text, y: Text)
    requires a + [NEWLINE] + x == b + [NEWLINE] + y
    requires NEWLINE !in a && NEWLINE !in b
    ensures a == b && x == y
  {
    var t := a + [NEWLINE] + x;
    NewlineAfter(a, x);
    NewlineAfter(b, y);
    assert a == t[..|a|] && b == t[..|b|];
    assert x == t[|a| + 1..] && y == t[|b| + 1..];
  }

  /** Signed text fixes both the kind of message and its meaning. */
  lemma {:induction false} DomainsApart(domain: Text, v: Value, domain': Text, v': Value)
    requires NEWLINE !in domain && NEWLINE !in domain'
    requires DomainSeparated(domain, v).Ok? && DomainSeparated(domain, v) == DomainSeparated(domain', v')
    ensures domain == domain' && Meaning(v) == Meaning(v')
  {
    FirstNewline(domain, Canonical(v).value, domain', Canonical(v').value);
    SameTextIff(v, v');
  }

  lemma {:induction false} NoNewline(s: string)
    requires Plain(s)
    ensures NEWLINE !in Ascii(s)
  {}

  /** Printable ASCII. */
  predicate Plain(s: string) {
    forall i | 0 <= i < |s| :: 32 as char <= s[i] < 128 as char
  }

  lemma {:induction false} DomainsArePlain()
    ensures Plain(REGISTRATION_DOMAIN) && Plain(HEARTBEAT_DOMAIN)
    ensures |REGISTRATION_DOMAIN| == 30 && |HEARTBEAT_DOMAIN| == 27
  {}

  /** No registration is ever read as a heartbeat. */
  lemma {:induction false} RegistrationIsNoHeartbeat(r: Registration<Text>, normalize: Normalizer, h: Heartbeat<Text>)
    requires RegistrationText(r, normalize).Ok?
    ensures RegistrationText(r, normalize) != HeartbeatText(h)
  {
    DomainsArePlain();
    hide Plain;
    NoNewline(REGISTRATION_DOMAIN);
    NoNewline(HEARTBEAT_DOMAIN);
    var network := normalize(r.network).value;
    if RegistrationText(r, normalize) == HeartbeatText(h) {
      DomainsApart(Ascii(REGISTRATION_DOMAIN), Obj(ProjectRegistration(r, network)),
                   Ascii(HEARTBEAT_DOMAIN), Obj(ProjectHeartbeat(h)));
      assert false;
    }
  }

  // ----- equal bytes, equal fields -----

  /** The value stored under the key at `i`, when no earlier entry has that key. */
  lemma {:induction false} LookupAt(es: seq<(Text, Value)>, i: nat)
    requires i < |es| && forall j | 0 <= j < i :: es[j].0 != es[i].0
    ensures Lookup(es, es[i].0) == Some(es[i].1)
  {
    if i > 0 {
      assert es[0].0 != es[i].0;
      LookupAt(es[1..], i - 1);
    }
  }

  lemma {:induction false} AbsentKey(es: seq<(Text, Value)>, key: Text)
    requires forall i | 0 <= i < |es| :: es[i].0 != key
    ensures Lookup(es, key) == None
  {
    if es != [] {
      assert es[0].0 != key;
      AbsentKey(es[1..], key);
    }
  }

  /** Entry by entry: two accepted objects with one key list mean the same exactly when their values do. */
  lemma {:induction false} SameShapeIff(a: seq<(Text, Value)>, b: seq<(Text, Value)>)
    requires |a| == |b| && forall i | 0 <= i < |a| :: a[i].0 == b[i].0
    requires DistinctKeys(a) && AllDefined(a) && AllDefined(b)
    requires Meaning(Obj(a)).Some? && Meaning(Obj(b)).Some?
    ensures Meaning(Obj(a)) == Meaning(Obj(b))
      <==> forall i | 0 <= i < |a| :: Meaning(a[i].1) == Meaning(b[i].1)
  {
    hide Meaning, Defined, SortEntries, MemberMeanings, Lookup;
    if Meaning(Obj(a)) == Meaning(Obj(b)) {
      forall i | 0 <= i < |a|
        ensures Meaning(a[i].1) == Meaning(b[i].1)
      {
        SameMembers(a, b, a[i].0);
        LookupAt(a, i);
        LookupAt(b, i);
        PresentAlike(a, b, i);
      }
    }
    if forall i | 0 <= i < |a| :: Meaning(a[i].1) == Meaning(b[i].1) { PairedObjects(a, b); }
  }

  lemma {:induction false} PresentAlike(a: seq<(Text, Value)>, b: seq<(Text, Value)>, i: nat)
    requires i < |a| == |b|
    requires Lookup(a, a[i].0) == Some(a[i].1) && Lookup(b, a[i].0) == Some(b[i].1)
    requires match (Lookup(a, a[i].0), Lookup(b, a[i].0))
      case (None, None) => true
      case (Some(v), Some(w)) => Meaning(v) == Meaning(w)
      case (Some(v), None) => Meaning(v) == None
      case (None, Some(w)) => Meaning(w) == None
    ensures Meaning(a[i].1) == Meaning(b[i].1)
  {
    hide Meaning, Lookup;
  }

  lemma {:induction false} PairedObjects(a: seq<(Text, Value)>, b: seq<(Text, Value)>)
    requires Paired(a, b) && AllDefined(a) && AllDefined(b)
    ensures Meaning(Obj(a)) == Meaning(Obj(b))
  {
    hide SortEntries, MemberMeanings, Defined, Paired, AllDefined;
    DefinedAll(a);
    DefinedAll(b);
    SortedWithin(a);
    SortedWithin(b);
    PairedMeanings(a, Obj(a), b, Obj(b));
  }

  ghost predicate Paired(a: seq<(Text, Value)>, b: seq<(Text, Value)>) {
    |a| == |b| && forall i | 0 <= i < |a| :: a[i].0 == b[i].0 && Meaning(a[i].1) == Meaning(b[i].1)
  }

  lemma {:induction false} InsertPaired(
      e: (Text, Value), a: seq<(Text, Value)>, f: (Text, Value), b: seq<(Text, Value)>)
    requires Paired(a, b) && e.0 == f.0 && Meaning(e.1) == Meaning(f.1)
    ensures Paired(InsertEntry(e, a), InsertEntry(f, b))
  {
    hide Meaning;
    if a != [] && Less(a[0].0, e.0) { InsertPaired(e, a[1..], f, b[1..]); }
  }

  lemma {:induction false} SortPaired(a: seq<(Text, Value)>, b: seq<(Text, Value)>)
    requires Paired(a, b)
    ensures Paired(SortEntries(a), SortEntries(b))
  {
    hide Meaning;
    if a != [] {
      SortPaired(a[1..], b[1..]);
      InsertPaired(a[0], SortEntries(a[1..]), b[0], SortEntries(b[1..]));
    }
  }

  lemma {:induction false} MembersPaired(a: seq<(Text, Value)>, v: Value, b: seq<(Text, Value)>, w: Value)
    requires Paired(a, b)
    requires forall e | e in a :: e.1 < v
    requires forall e | e in b :: e.1 < w
    ensures MemberMeanings(a, v) == MemberMeanings(b, w)
    decreases |a|
  {
    hide Meaning;
    if a != [] { MembersPaired(a[1..], v, b[1..], w); }
  }

  lemma {:induction false} PairedMeanings(a: seq<(Text, Value)>, v: Value, b: seq<(Text, Value)>, w: Value)
    requires Paired(a, b)
    requires forall e | e in SortEntries(a) :: e.1 < v
    requires forall e | e in SortEntries(b) :: e.1 < w
    ensures MemberMeanings(SortEntries(a), v) == MemberMeanings(SortEntries(b), w)
  {
    SortPaired(a, b);
    MembersPaired(SortEntries(a), v, SortEntries(b), w);
  }

  // ----- capabilities -----

  function CapabilityEntries(c: Capability<Text>): seq<(Text, Value)> {
    ProjectCapability(c).entries
  }

  lemma {:induction false} CapabilityKeys()
    ensures Ascii("model") != Ascii("contextWindow") && Ascii("model") != Ascii("pricePer1kTokensUsdc")
    ensures Ascii("model") != Ascii("quantization") && Ascii("contextWindow") != Ascii("pricePer1kTokensUsdc")
    ensures Ascii("contextWindow") != Ascii("quantization")
    ensures Ascii("pricePer1kTokensUsdc") != Ascii("quantization")
  {
    assert |Ascii("model")| == 5 && |Ascii("contextWindow")| == 13;
    assert |Ascii("pricePer1kTokensUsdc")| == 20 && |Ascii("quantization")| == 12;
  }

  lemma {:induction false} CapabilityLookups(c: Capability<Text>)
    ensures ProjectCapability(c) == Obj(CapabilityEntries(c))
    ensures var es := CapabilityEntries(c);
      && Lookup(es, Ascii("model")) == Some(Str(c.model))
      && Lookup(es, Ascii("contextWindow")) == Some(Number(c.contextWindow))
      && Lookup(es, Ascii("pricePer1kTokensUsdc")) == Some(Str(c.pricePer1kTokensUsdc))
      && Lookup(es, Ascii("quantization"))
         == (match c.quantization case None => None case Some(q) => Some(Str(q)))
      && (forall e | e in es :: e.1.Str? || e.1.Number?)
      && AllDefined(es)
  {
    var es := CapabilityEntries(c);
    CapabilityKeys();
    hide Ascii, Lookup;
    LookupAt(es, 0);
    LookupAt(es, 1);
    LookupAt(es, 2);
    if c.quantization.Some? {
      LookupAt(es, 3);
    } else {
      AbsentKey(es, Ascii("quantization"));
    }
  }

  lemma {:induction false} CapabilityAccepted(c: Capability<Text>)
    ensures Meaning(ProjectCapability(c)).Some?
  {
    CapabilityLookups(c);
    ObjectAccepted(CapabilityEntries(c));
  }

  lemma {:induction false} ScalarMeanings(s: Text, t: Text, m: int, n: int)
    ensures Meaning(Str(s)) == Meaning(Str(t)) <==> s == t
    ensures Meaning(Number(m)) == Meaning(Number(n)) <==> m == n
    ensures Meaning(Str(s)).Some? && Meaning(Number(m)).Some?
  {}

  lemma {:induction false} SameCapability(c: Capability<Text>, d: Capability<Text>)
    requires Meaning(ProjectCapability(c)) == Meaning(ProjectCapability(d))
    ensures c == d
  {
    hide Ascii, CapabilityEntries, Lookup, Meaning, ProjectCapability;
    CapabilityAccepted(c);
    CapabilityLookups(c);
    CapabilityLookups(d);
    var a, b := CapabilityEntries(c), CapabilityEntries(d);
    ScalarMeanings(c.model, d.model, c.contextWindow, d.contextWindow);
    ScalarMeanings(c.pricePer1kTokensUsdc, d.pricePer1kTokensUsdc, 0, 0);
    SameMembers(a, b, Ascii("model"));
    SameMembers(a, b, Ascii("contextWindow"));
    SameMembers(a, b, Ascii("pricePer1kTokensUsdc"));
    SameQuantization(c, d, a, b);
  }

  lemma {:induction false} SameQuantization(
      c: Capability<Text>, d: Capability<Text>, a: seq<(Text, Value)>, b: seq<(Text, Value)>)
    requires Meaning(Obj(a)).Some? && Meaning(Obj(a)) == Meaning(Obj(b))
    requires AllDefined(a) && AllDefined(b)
    requires Lookup(a, Ascii("quantization"))
      == (match c.quantization case None => None case Some(q) => Some(Str(q)))
    requires Lookup(b, Ascii("quantization"))
      == (match d.quantization case None => None case Some(q) => Some(Str(q)))
    ensures c.quantization == d.quantization
  {
    hide Ascii, Lookup, Meaning;
    SameMembers(a, b, Ascii("quantization"));
    match (c.quantization, d.quantization)
    case (Some(p), Some(q)) => ScalarMeanings(p, q, 0, 0);
    case (Some(p), None) => ScalarMeanings(p, p, 0, 0);
    case (None, Some(q)) => ScalarMeanings(q, q, 0, 0);
    case (None, None) =>
  }

  lemma {:induction false} AcceptedItems(items: seq<Value>)
    requires forall v | v in items :: v != Undefined && Meaning(v).Some?
    ensures ItemMeanings(items).Some?
  {
    if items != [] {
      assert items[0] in items && forall v | v in items[1..] :: v in items;
      AcceptedItems(items[1..]);
      hide Meaning;
    }
  }

  lemma {:induction false} SameCapabilitiesIff(cs: seq<Capability<Text>>, ds: seq<Capability<Text>>)
    ensures Meaning(Arr(ProjectCapabilities(cs))).Some?
    ensures Meaning(Arr(ProjectCapabilities(cs))) == Meaning(Arr(ProjectCapabilities(ds))) <==> cs == ds
  {
    var a, b := ProjectCapabilities(cs), ProjectCapabilities(ds);
    CapabilitiesAccepted(cs);
    CapabilitiesAccepted(ds);
    if Meaning(Arr(a)) == Meaning(Arr(b)) {
      hide ProjectCapability;
      ItemsCount(a);
      ItemsCount(b);
      assert |cs| == |ds|;
      forall i | 0 <= i < |cs|
        ensures cs[i] == ds[i]
      {
        ItemsPointwise(a, i);
        ItemsPointwise(b, i);
        SameCapability(cs[i], ds[i]);
      }
      assert cs == ds;
    }
  }

  lemma {:induction false} CapabilitiesAccepted(cs: seq<Capability<Text>>)
    ensures ItemMeanings(ProjectCapabilities(cs)).Some?
    ensures forall i | 0 <= i < |cs| :: ProjectCapability(cs[i]) != Undefined
  {
    forall v | v in ProjectCapabilities(cs)
      ensures v != Undefined && Meaning(v).Some?
    {
      var i :| 0 <= i < |cs| && ProjectCapabilities(cs)[i] == v;
      CapabilityAccepted(cs[i]);
    }
    AcceptedItems(ProjectCapabilities(cs));
  }

  // ----- registrations and heartbeats -----

  /** Equal in all eight fields, the network up to normalization. */
  ghost predicate SameRegistration(r: Registration<Text>, q: Registration<Text>, normalize: Normalizer) {
    && r.nodeId == q.nodeId && r.operatorAddress == q.operatorAddress && r.endpoint == q.endpoint
    && r.capabilities == q.capabilities && normalize(r.network) == normalize(q.network)
    && r.version == q.version && r.timestamp == q.timestamp && r.nonce == q.nonce
  }

  lemma {:induction false} RegistrationKeys(r: Registration<Text>, network: Text)
    ensures DistinctKeys(ProjectRegistration(r, network))
  {
    assert |Ascii("nodeId")| == 6 && |Ascii("operatorAddress")| == 15 && |Ascii("endpoint")| == 8;
    assert |Ascii("capabilities")| == 12 && |Ascii("network")| == 7 && |Ascii("version")| == 7;
    assert |Ascii("timestamp")| == 9 && |Ascii("nonce")| == 5;
    assert Ascii("network")[0] != Ascii("version")[0];
    hide Ascii;
  }

  lemma {:induction false} SameText(domain: Text, v: Value, w: Value)
    requires DomainSeparated(domain, v).Ok? && DomainSeparated(domain, w).Ok?
    ensures DomainSeparated(domain, v) == DomainSeparated(domain, w) <==> Meaning(v) == Meaning(w)
    ensures Meaning(v).Some? && Meaning(w).Some?
  {
    SameTextIff(v, w);
    CanonicalWrites(v);
    CanonicalWrites(w);
    hide Canonical, Meaning, Print;
    var x, y := Canonical(v).value, Canonical(w).value;
    var head := domain + [NEWLINE];
    assert (head + x)[|head|..] == x && (head + y)[|head|..] == y;
  }

  /** Two registrations sign the same bytes exactly when they agree in every field. */
  lemma {:induction false} RegistrationTextIff(r: Registration<Text>, q: Registration<Text>, normalize: Normalizer)
    requires RegistrationText(r, normalize).Ok? && RegistrationText(q, normalize).Ok?
    ensures RegistrationText(r, normalize) == RegistrationText(q, normalize)
      <==> SameRegistration(r, q, normalize)
  {
    hide Meaning, DomainSeparated, ProjectRegistration, DistinctKeys, Ascii;
    var n, m := normalize(r.network).value, normalize(q.network).value;
    var a, b := ProjectRegistration(r, n), ProjectRegistration(q, m);
    SameText(Ascii(REGISTRATION_DOMAIN), Obj(a), Obj(b));
    RegistrationKeys(r, n);
    RegistrationShape(r, n, q, m);
    SameShapeIff(a, b);
    RegistrationMeanings(r, n, q, m);
  }

  lemma {:induction false} RegistrationShape(r: Registration<Text>, n: Text, q: Registration<Text>, m: Text)
    ensures var a, b := ProjectRegistration(r, n), ProjectRegistration(q, m);
      && |a| == |b| && (forall i | 0 <= i < |a| :: a[i].0 == b[i].0)
      && AllDefined(a) && AllDefined(b)
  {
    var a, b := ProjectRegistration(r, n), ProjectRegistration(q, m);
    hide Ascii, ProjectCapabilities;
  }

  lemma {:induction false} RegistrationMeanings(r: Registration<Text>, n: Text, q: Registration<Text>, m: Text)
    ensures var a, b := ProjectRegistration(r, n), ProjectRegistration(q, m);
      (forall i | 0 <= i < |a| :: Meaning(a[i].1) == Meaning(b[i].1))
      <==> (r.nodeId == q.nodeId && r.operatorAddress == q.operatorAddress && r.endpoint == q.endpoint
            && r.capabilities == q.capabilities && n == m
            && r.version == q.version && r.timestamp == q.timestamp && r.nonce == q.nonce)
  {
    var a, b := ProjectRegistration(r, n), ProjectRegistration(q, m);
    SameCapabilitiesIff(r.capabilities, q.capabilities);
    var x, y := Arr(ProjectCapabilities(r.capabilities)), Arr(ProjectCapabilities(q.capabilities));
    hide Ascii, ProjectCapabilities, ItemMeanings;
    if forall i | 0 <= i < |a| :: Meaning(a[i].1) == Meaning(b[i].1) {
      assert Meaning(a[0].1) == Meaning(b[0].1) && Meaning(a[1].1) == Meaning(b[1].1);
      assert Meaning(a[2].1) == Meaning(b[2].1) && Meaning(a[3].1) == Meaning(b[3].1);
      assert Meaning(a[4].1) == Meaning(b[4].1) && Meaning(a[5].1) == Meaning(b[5].1);
      assert Meaning(a[6].1) == Meaning(b[6].1) && Meaning(a[7].1) == Meaning(b[7].1);
    }
  }

  lemma {:induction false} HeartbeatKeys(h: Heartbeat<Text>)
    ensures DistinctKeys(ProjectHeartbeat(h))
  {
    assert |Ascii("nodeId")| == 6 && |Ascii("healthy")| == 7 && |Ascii("inFlight")| == 8;
    assert |Ascii("maxConcurrency")| == 14 && |Ascii("version")| == 7;
    assert |Ascii("timestamp")| == 9 && |Ascii("nonce")| == 5;
    assert Ascii("healthy")[0] != Ascii("version")[0];
    hide Ascii;
  }

  lemma {:induction false} HeartbeatShape(h: Heartbeat<Text>, g: Heartbeat<Text>)
    ensures var a, b := ProjectHeartbeat(h), ProjectHeartbeat(g);
      && |a| == |b| && (forall i | 0 <= i < |a| :: a[i].0 == b[i].0)
      && AllDefined(a) && AllDefined(b)
  {
    var a, b := ProjectHeartbeat(h), ProjectHeartbeat(g);
    hide Ascii, ProjectCapabilities;
  }

  lemma {:induction false} HeartbeatMeanings(h: Heartbeat<Text>, g: Heartbeat<Text>)
    requires var a, b := ProjectHeartbeat(h), ProjectHeartbeat(g);
      forall i | 0 <= i < |a| :: Meaning(a[i].1) == Meaning(b[i].1)
    ensures h == g
  {
    var a, b := ProjectHeartbeat(h), ProjectHeartbeat(g);
    assert Meaning(a[0].1) == Meaning(b[0].1) && Meaning(a[1].1) == Meaning(b[1].1);
    assert Meaning(a[2].1) == Meaning(b[2].1) && Meaning(a[3].1) == Meaning(b[3].1);
    assert Meaning(a[4].1) == Meaning(b[4].1) && Meaning(a[5].1) == Meaning(b[5].1);
    assert Meaning(a[6].1) == Meaning(b[6].1);
    assert Meaning(Bool(h.healthy)) == Some(BoolTree(h.healthy));
    hide Ascii, Meaning;
    ScalarMeanings(h.nodeId, g.nodeId, h.inFlight, g.inFlight);
    ScalarMeanings(h.version, g.version, h.maxConcurrency, g.maxConcurrency);
    ScalarMeanings(h.nonce, g.nonce, h.timestamp, g.timestamp);
    BoolMeanings(h.healthy, g.healthy);
  }

  lemma {:induction false} BoolMeanings(b: bool, c: bool)
    ensures Meaning(Bool(b)) == Meaning(Bool(c)) <==> b == c
  {}

  /** Two heartbeats sign the same bytes exactly when they are the same heartbeat. */
  lemma {:induction false} HeartbeatTextIff(h: Heartbeat<Text>, g: Heartbeat<Text>)
    requires HeartbeatText(h).Ok? && HeartbeatText(g).Ok?
    ensures HeartbeatText(h) == HeartbeatText(g) <==> h == g
  {
    hide Meaning, DomainSeparated, ProjectHeartbeat, DistinctKeys, Ascii;
    var a, b := ProjectHeartbeat(h), ProjectHeartbeat(g);
    SameText(Ascii(HEARTBEAT_DOMAIN), Obj(a), Obj(b));
    HeartbeatKeys(h);
    HeartbeatShape(h, g);
    SameShapeIff(a, b);
    if forall i | 0 <= i < |a| :: Meaning(a[i].1) == Meaning(b[i].1) { HeartbeatMeanings(h, g); }
  }

  // ----- what a verifier reads in the signed text -----

  lemma {:induction false} MembersCount(entries: seq<(Text, Value)>, within: Value)
    requires forall e | e in entries :: e.1 < within
    requires MemberMeanings(entries, within).Some?
    ensures |MemberMeanings(entries, within).value| == |entries|
    decreases |entries|
  {
    if entries != [] { MembersCount(entries[1..], within); }
    hide Meaning;
  }

  /** The text of an accepted object parses to an object with its keys, each with its value's tree. */
  lemma {:induction false} ObjectReads(entries: seq<(Text, Value)>) returns (members: seq<(Text, Tree)>)
    requires Canonical(Obj(entries)).Ok? && DistinctKeys(entries) && AllDefined(entries)
    ensures Parse(Canonical(Obj(entries)).value) == Some((ObjectTree(members), []))
    ensures |members| == |entries|
    ensures forall i | 0 <= i < |entries| :: Lookup(members, entries[i].0) == Meaning(entries[i].1)
  {
    CanonicalWrites(Obj(entries));
    SortedWithin(entries);
    DefinedAll(entries);
    SortKeeps(entries);
    members := Meaning(Obj(entries)).value.members;
    MembersCount(SortEntries(entries), Obj(entries));
    hide Canonical, Meaning, MemberMeanings, SortEntries, Defined, Parse, Print;
    RoundTrip(ObjectTree(members), []);
    assert Print(ObjectTree(members)) + [] == Print(ObjectTree(members));
    forall i | 0 <= i < |entries|
      ensures Lookup(members, entries[i].0) == Meaning(entries[i].1)
    {
      LookupAt(entries, i);
      SortLookup(entries, entries[i].0);
      ObjectMembersLookup(entries, entries[i].0);
    }
  }

  lemma {:induction false} ObjectMembersLookup(entries: seq<(Text, Value)>, key: Text)
    requires Meaning(Obj(entries)).Some? && Meaning(Obj(entries)).value.ObjectTree? && AllDefined(entries)
    ensures Lookup(Meaning(Obj(entries)).value.members, key) ==
      match Lookup(SortEntries(entries), key) case None => None case Some(v) => Meaning(v)
  {
    SortedWithin(entries);
    DefinedAll(entries);
    MembersLookup(SortEntries(entries), Obj(entries), key);
    hide SortEntries, Defined, Lookup, MemberMeanings;
  }

  /** A capability's four keys, the last only when it is quantized. */
  ghost predicate CapabilityTree(c: Capability<Text>, t: Tree) {
    && t.ObjectTree?
    && |t.members| == (if c.quantization.Some? then 4 else 3)
    && Lookup(t.members, Ascii("model")) == Some(StringTree(c.model))
    && Lookup(t.members, Ascii("contextWindow")) == Some(NumberTree(c.contextWindow))
    && Lookup(t.members, Ascii("pricePer1kTokensUsdc")) == Some(StringTree(c.pricePer1kTokensUsdc))
    && Lookup(t.members, Ascii("quantization"))
       == (match c.quantization case None => None case Some(q) => Some(StringTree(q)))
  }

  ghost predicate CapabilityTrees(cs: seq<Capability<Text>>, items: seq<Tree>) {
    |items| == |cs| && forall i | 0 <= i < |cs| :: CapabilityTree(cs[i], items[i])
  }

  /** The eight keys of a registration, and no other; `network` is the normalized one. */
  ghost predicate RegistrationTree(r: Registration<Text>, network: Text, t: Tree) {
    && t.ObjectTree? && |t.members| == 8
    && Lookup(t.members, Ascii("nodeId")) == Some(StringTree(r.nodeId))
    && Lookup(t.members, Ascii("operatorAddress")) == Some(StringTree(r.operatorAddress))
    && Lookup(t.members, Ascii("endpoint")) == Some(StringTree(r.endpoint))
    && Lookup(t.members, Ascii("network")) == Some(StringTree(network))
    && Lookup(t.members, Ascii("version")) == Some(StringTree(r.version))
    && Lookup(t.members, Ascii("timestamp")) == Some(NumberTree(r.timestamp))
    && Lookup(t.members, Ascii("nonce")) == Some(StringTree(r.nonce))
    && (var capabilities: Option<Tree> := Lookup(t.members, Ascii("capabilities"));
        && capabilities.Some? && capabilities.value.ArrayTree?
        && CapabilityTrees(r.capabilities, capabilities.value.items))
  }

  /** The seven keys of a heartbeat, and no other. */
  ghost predicate HeartbeatTree(h: Heartbeat<Text>, t: Tree) {
    && t.ObjectTree? && |t.members| == 7
    && Lookup(t.members, Ascii("nodeId")) == Some(StringTree(h.nodeId))
    && Lookup(t.members, Ascii("healthy")) == Some(BoolTree(h.healthy))
    && Lookup(t.members, Ascii("inFlight")) == Some(NumberTree(h.inFlight))
    && Lookup(t.members, Ascii("maxConcurrency")) == Some(NumberTree(h.maxConcurrency))
    && Lookup(t.members, Ascii("version")) == Some(StringTree(h.version))
    && Lookup(t.members, Ascii("timestamp")) == Some(NumberTree(h.timestamp))
    && Lookup(t.members, Ascii("nonce")) == Some(StringTree(h.nonce))
  }

  lemma {:induction false} CapabilityReads(c: Capability<Text>)
    ensures Meaning(ProjectCapability(c)).Some? && CapabilityTree(c, Meaning(ProjectCapability(c)).value)
  {
    hide Ascii, Lookup, SortEntries, Defined, MemberMeanings, Meaning, CapabilityEntries, ProjectCapability, AllDefined;
    CapabilityAccepted(c);
    CapabilityLookups(c);
    var es := CapabilityEntries(c);
    CapabilitySize(c);
    ObjectSize(es);
    EntryReads(es, Ascii("model"));
    EntryReads(es, Ascii("contextWindow"));
    EntryReads(es, Ascii("pricePer1kTokensUsdc"));
    EntryReads(es, Ascii("quantization"));
    StringMeaning(c.model);
    NumberMeaning(c.contextWindow);
    StringMeaning(c.pricePer1kTokensUsdc);
    if c.quantization.Some? { StringMeaning(c.quantization.value); }
  }

  lemma {:induction false} CapabilitySize(c: Capability<Text>)
    ensures |CapabilityEntries(c)| == if c.quantization.Some? then 4 else 3
  {
    hide Ascii;
  }

  lemma {:induction false} ObjectSize(es: seq<(Text, Value)>)
    requires Meaning(Obj(es)).Some? && AllDefined(es)
    ensures Meaning(Obj(es)).value.ObjectTree? && |Meaning(Obj(es)).value.members| == |es|
  {
    SortedWithin(es);
    DefinedAll(es);
    SortKeeps(es);
    MembersCount(SortEntries(es), Obj(es));
    hide SortEntries, Defined, MemberMeanings;
  }

  lemma {:induction false} EntryReads(es: seq<(Text, Value)>, key: Text)
    requires Meaning(Obj(es)).Some? && Meaning(Obj(es)).value.ObjectTree? && AllDefined(es)
    ensures Lookup(Meaning(Obj(es)).value.members, key) ==
      match Lookup(es, key) case None => None case Some(v) => Meaning(v)
  {
    hide Lookup, SortEntries, Meaning;
    SortLookup(es, key);
    ObjectMembersLookup(es, key);
  }

  lemma {:induction false} CapabilitiesRead(cs: seq<Capability<Text>>)
    ensures var t := Meaning(Arr(ProjectCapabilities(cs)));
      t.Some? && t.value.ArrayTree? && CapabilityTrees(cs, t.value.items)
  {
    CapabilitiesAccepted(cs);
    var values := ProjectCapabilities(cs);
    ItemsCount(values);
    var items := ItemMeanings(values).value;
    hide CapabilityTree, ItemMeanings, ProjectCapability;
    forall i | 0 <= i < |cs|
      ensures CapabilityTree(cs[i], items[i])
    {
      ItemsPointwise(values, i);
      CapabilityReads(cs[i]);
    }
  }

  /**
   * A registration is signed exactly if its network is known. The signed text is the domain line
   * and then JSON that parses to an object with the eight fields under their names.
   */
  lemma {:induction false} RegistrationReads(r: Registration<Text>, normalize: Normalizer)
      returns (json: Text, tree: Tree)
    requires normalize(r.network).Some?
    ensures RegistrationText(r, normalize) == Ok(Ascii("x402-mesh/node-registration/v1\n") + json)
    ensures Parse(json) == Some((tree, [])) && RegistrationTree(r, normalize(r.network).value, tree)
  {
    hide Ascii, Canonical, Parse, DistinctKeys, RegistrationTree, ProjectRegistration, AllDefined, Meaning, Plain;
    var network := normalize(r.network).value;
    var es := ProjectRegistration(r, network);
    RegistrationAccepted(r, network);
    json := Canonical(Obj(es)).value;
    DomainsArePlain();
    DomainLine(REGISTRATION_DOMAIN, "x402-mesh/node-registration/v1\n");
    RegistrationKeys(r, network);
    RegistrationShape(r, network, r, network);
    var members := ObjectReads(es);
    tree := ObjectTree(members);
    RegistrationMembers(r, network, members);
  }

  lemma {:induction false} RegistrationMembers(r: Registration<Text>, network: Text, members: seq<(Text, Tree)>)
    requires var es := ProjectRegistration(r, network);
      |members| == |es| && forall i | 0 <= i < |es| :: Lookup(members, es[i].0) == Meaning(es[i].1)
    ensures RegistrationTree(r, network, ObjectTree(members))
  {
    hide Ascii, CapabilityTrees, Lookup, Meaning;
    var es := ProjectRegistration(r, network);
    CapabilitiesRead(r.capabilities);
    StringMeaning(r.nodeId);
    StringMeaning(r.operatorAddress);
    StringMeaning(r.endpoint);
    StringMeaning(network);
    StringMeaning(r.version);
    StringMeaning(r.nonce);
    NumberMeaning(r.timestamp);
    assert es[0] == (Ascii("nodeId"), Str(r.nodeId)) && es[1] == (Ascii("operatorAddress"), Str(r.operatorAddress));
    assert es[2] == (Ascii("endpoint"), Str(r.endpoint));
    assert es[3] == (Ascii("capabilities"), Arr(ProjectCapabilities(r.capabilities)));
    assert es[4] == (Ascii("network"), Str(network)) && es[5] == (Ascii("version"), Str(r.version));
    assert es[6] == (Ascii("timestamp"), Number(r.timestamp)) && es[7] == (Ascii("nonce"), Str(r.nonce));
  }

  lemma {:induction false} StringMeaning(s: Text)
    ensures Meaning(Str(s)) == Some(StringTree(s))
  {}

  lemma {:induction false} NumberMeaning(n: int)
    ensures Meaning(Number(n)) == Some(NumberTree(n))
  {}

  lemma {:induction false} DomainLine(domain: string, line: string)
    requires Plain(domain) && line == domain + "\n"
    ensures forall i | 0 <= i < |line| :: line[i] < 128 as char
    ensures Ascii(line) == Ascii(domain) + [NEWLINE]
  {}

  lemma {:induction false} RegistrationAccepted(r: Registration<Text>, network: Text)
    ensures Canonical(Obj(ProjectRegistration(r, network))).Ok?
  {
    hide Ascii, ProjectCapabilities, ItemMeanings, Canonical, Print, MemberMeanings, SortEntries, Defined;
    SameCapabilitiesIff(r.capabilities, r.capabilities);
    var es := ProjectRegistration(r, network);
    ObjectAccepted(es);
    CanonicalWrites(Obj(es));
  }

  lemma {:induction false} HeartbeatAccepted(h: Heartbeat<Text>)
    ensures Canonical(Obj(ProjectHeartbeat(h))).Ok?
  {
    var es := ProjectHeartbeat(h);
    hide Ascii;
    ObjectAccepted(es);
    CanonicalWrites(Obj(es));
  }

  /** Every heartbeat is signed, as its domain line and JSON with the seven fields under their names. */
  lemma {:induction false} HeartbeatReads(h: Heartbeat<Text>) returns (json: Text, tree: Tree)
    ensures HeartbeatText(h) == Ok(Ascii("x402-mesh/node-heartbeat/v1\n") + json)
    ensures Parse(json) == Some((tree, [])) && HeartbeatTree(h, tree)
  {
    hide Ascii, Canonical, Parse, DistinctKeys, HeartbeatTree, ProjectHeartbeat, AllDefined, Meaning, Plain;
    var es := ProjectHeartbeat(h);
    HeartbeatAccepted(h);
    json := Canonical(Obj(es)).value;
    DomainsArePlain();
    DomainLine(HEARTBEAT_DOMAIN, "x402-mesh/node-heartbeat/v1\n");
    HeartbeatKeys(h);
    HeartbeatShape(h, h);
    var members := ObjectReads(es);
    tree := ObjectTree(members);
    HeartbeatMembers(h, members);
  }

  lemma {:induction false} HeartbeatMembers(h: Heartbeat<Text>, members: seq<(Text, Tree)>)
    requires var es := ProjectHeartbeat(h);
      |members| == |es| && forall i | 0 <= i < |es| :: Lookup(members, es[i].0) == Meaning(es[i].1)
    ensures HeartbeatTree(h, ObjectTree(members))
  {
    hide Ascii, Lookup, Meaning;
    var es := ProjectHeartbeat(h);
    StringMeaning(h.nodeId);
    StringMeaning(h.version);
    StringMeaning(h.nonce);
    NumberMeaning(h.inFlight);
    NumberMeaning(h.maxConcurrency);
    NumberMeaning(h.timestamp);
    BoolMeaning(h.healthy);
    assert es[0] == (Ascii("nodeId"), Str(h.nodeId)) && es[1] == (Ascii("healthy"), Bool(h.healthy));
    assert es[2] == (Ascii("inFlight"), Number(h.inFlight));
    assert es[3] == (Ascii("maxConcurrency"), Number(h.maxConcurrency)) && es[4] == (Ascii("version"), Str(h.version));
    assert es[5] == (Ascii("timestamp"), Number(h.timestamp)) && es[6] == (Ascii("nonce"), Str(h.nonce));
  }

  lemma {:induction false} BoolMeaning(b: bool)
    ensures Meaning(Bool(b)) == Some(BoolTree(b))
  {}
}
