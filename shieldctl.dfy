/**
 * The command-line tool `shieldctl`: the input handling inside its cobra
 * commands. `status` chooses an output format; `tenant create` parses the
 * owner list, decodes the JSON network-policy rules and hands everything to
 * provisioning; `delete-tenant` runs the cleanup. JSON decoding is an oracle.
 */
module Shieldctl {
  import opened Wrappers
  import opened Text
  import opened TenantTypes
  import opened Objects
  import opened ClusterStore
  import opened Provisioning

  // ---------------------------------------------------------------------
  // status --output
  // ---------------------------------------------------------------------

  /** What `status` prints: the text line, or the JSON object with `ok` and `command`. */
  datatype StatusReport = TextReport(line: string) | JsonReport(ok: bool, command: string)

  /** The value the switch looks at: trimmed, then lower-cased. */
  function OutputSelector(output: string): string
  {
    ToLower(TrimSpace(output))
  }

  /**
   * `status`: "" and "text" print the text line, "json" the JSON object,
   * anything else is an "invalid --output" error carrying the value as given.
   */
  function Status(output: string): (r: Result<StatusReport, string>)
    ensures r == Ok(TextReport("shieldctl: ok")) <==> OutputSelector(output) in {"", "text"}
    ensures r == Ok(JsonReport(true, "status")) <==> OutputSelector(output) == "json"
    ensures r.Err? <==> OutputSelector(output) !in {"", "text", "json"}
    ensures r.Err? ==> r.error == output
  {
    Report(OutputSelector(output), output)
  }

  /** The switch of `status` on the selector; `output` is only quoted in the error. */
  function Report(selector: string, output: string): (r: Result<StatusReport, string>)
  {
    match selector
    case "" => Ok(TextReport("shieldctl: ok"))
    case "text" => Ok(TextReport("shieldctl: ok"))
    case "json" => Ok(JsonReport(true, "status"))
    case _ => Err(output)
  }

  /** Lower-casing keeps a trimmed string trimmed: spaces are not letters. */
  lemma ToLowerKeepsTrimmed(s: string)
    requires Trimmed(s)
    ensures Trimmed(ToLower(s))
  {
  }

  /** The selector is already normal: trimming and lower-casing it again changes nothing. */
  lemma OutputSelectorIdempotent(output: string)
    ensures OutputSelector(OutputSelector(output)) == OutputSelector(output)
  {
    var t := TrimSpace(output);
    var sel := ToLower(t);
    ToLowerKeepsTrimmed(t);
    TrimSpaceOfTrimmed(sel);
    ToLowerIdempotent(t);
    assert OutputSelector(sel) == ToLower(TrimSpace(sel)) == ToLower(sel) == sel;
  }

  /**
   * Case and surrounding spaces do not matter: any accepted value selects
   * the same report as its normal form.
   */
  lemma StatusIgnoresCaseAndSpace(output: string)
    ensures Status(output).Ok? ==> Status(output) == Status(OutputSelector(output))
    ensures Status(output).Ok? <==> Status(OutputSelector(output)).Ok?
  {
    var sel := OutputSelector(output);
    OutputSelectorIdempotent(output);
    assert Status(output) == Report(sel, output);
    assert Status(sel) == Report(sel, sel);
  }

  // ---------------------------------------------------------------------
  // tenant create: the owner list
  // ---------------------------------------------------------------------

  /** Every piece trimmed, in place. */
  function TrimAll(pieces: seq<string>): (r: seq<string>)
    ensures |r| == |pieces|
    ensures forall i | 0 <= i < |pieces| :: r[i] == TrimSpace(pieces[i])
  {
    if pieces == [] then [] else [TrimSpace(pieces[0])] + TrimAll(pieces[1..])
  }

  /** The non-empty pieces, in order, duplicates kept. */
  function DropEmpty(pieces: seq<string>): (r: seq<string>)
    ensures |r| <= |pieces|
    ensures forall i | 0 <= i < |r| :: r[i] != ""
  {
    if pieces == [] then []
    else
      var rest := DropEmpty(pieces[1..]);
      if pieces[0] == "" then rest else [pieces[0]] + rest
  }

  /** Exactly the non-empty pieces survive. */
  lemma {:induction false} DropEmptyMembers(pieces: seq<string>)
    ensures forall o <- DropEmpty(pieces) :: o in pieces
    ensures forall p <- pieces :: p != "" ==> p in DropEmpty(pieces)
  {
    if pieces != [] {
      DropEmptyMembers(pieces[1..]);
      assert forall p <- pieces :: p == pieces[0] || p in pieces[1..];
      assert forall p <- pieces[1..] :: p in pieces;
    }
  }

  /** Dropping works piece by piece, so it keeps the order of the pieces. */
  lemma {:induction false} DropEmptyAppend(a: seq<string>, b: seq<string>)
    ensures DropEmpty(a + b) == DropEmpty(a) + DropEmpty(b)
  {
    if a != [] {
      DropEmptyAppend(a[1..], b);
      assert (a + b)[0] == a[0] && (a + b)[1..] == a[1..] + b;
      var head := if a[0] == "" then [] else [a[0]];
      assert DropEmpty(a + b) == head + DropEmpty(a[1..] + b);
      assert DropEmpty(a) == head + DropEmpty(a[1..]);
    } else {
      assert a + b == b;
    }
  }

  /** What one piece contributes: itself unless it is empty. */
  function Kept(o: string): seq<string>
  {
    if o == "" then [] else [o]
  }

  /** One more piece is kept when it is not empty. */
  lemma DropEmptySnoc(pieces: seq<string>, p: string)
    ensures DropEmpty(pieces + [p]) == DropEmpty(pieces) + Kept(p)
  {
    DropEmptyAppend(pieces, [p]);
    assert [p][1..] == [];
  }

  /** Extending a prefix by one piece keeps that piece when it is not empty. */
  lemma DropEmptyStep(pieces: seq<string>, i: nat)
    requires i < |pieces|
    ensures DropEmpty(pieces[..i + 1]) == DropEmpty(pieces[..i]) + Kept(pieces[i])
  {
    assert pieces[..i + 1] == pieces[..i] + [pieces[i]];
    DropEmptySnoc(pieces[..i], pieces[i]);
  }

  /** Without empty pieces nothing is dropped. */
  lemma {:induction false} DropEmptyOfNonEmpty(pieces: seq<string>)
    requires forall p <- pieces :: p != ""
    ensures DropEmpty(pieces) == pieces
  {
    if pieces != [] {
      assert forall p <- pieces[1..] :: p in pieces;
      DropEmptyOfNonEmpty(pieces[1..]);
      assert pieces[0] in pieces;
      assert DropEmpty(pieces) == [pieces[0]] + DropEmpty(pieces[1..]);
    }
  }

  /** The owners of `tenant create`: the comma-separated pieces of --owners, trimmed, empty ones dropped. */
  function OwnerList(owners: string): seq<string>
  {
    DropEmpty(TrimAll(Split(owners, ',')))
  }

  /** Trimming then dropping leaves only trimmed, non-empty pieces. */
  lemma CleanPiecesTrimmed(pieces: seq<string>)
    ensures forall o <- DropEmpty(TrimAll(pieces)) :: o != "" && Trimmed(o)
  {
    var trimmed := TrimAll(pieces);
    DropEmptyMembers(trimmed);
    forall o <- DropEmpty(trimmed) ensures Trimmed(o) {
      var i :| 0 <= i < |trimmed| && trimmed[i] == o;
    }
  }

  /** Trimming then dropping keeps the trimmed form of every non-blank piece. */
  lemma CleanPiecesKept(pieces: seq<string>)
    ensures forall p <- pieces :: !Blank(p) ==> TrimSpace(p) in DropEmpty(TrimAll(pieces))
  {
    var trimmed := TrimAll(pieces);
    DropEmptyMembers(trimmed);
    forall p <- pieces | !Blank(p) ensures TrimSpace(p) in DropEmpty(trimmed) {
      var i :| 0 <= i < |pieces| && pieces[i] == p;
      assert trimmed[i] in trimmed;
    }
  }

  /** Every parsed owner is non-empty and trimmed, and every non-blank piece of the flag is among them. */
  lemma OwnerListClean(owners: string)
    ensures forall o <- OwnerList(owners) :: o != "" && Trimmed(o)
    ensures forall p <- Split(owners, ',') :: !Blank(p) ==> TrimSpace(p) in OwnerList(owners)
  {
    CleanPiecesTrimmed(Split(owners, ','));
    CleanPiecesKept(Split(owners, ','));
  }

  /**
   * Owner names that are non-empty, trimmed and free of commas come back
   * unchanged, in order and with duplicates, from the comma-joined flag value.
   */
  lemma OwnerListRoundTrip(names: seq<string>)
    requires forall n <- names :: n != "" && Trimmed(n) && ',' !in n
    ensures OwnerList(Join(names, ',')) == names
  {
    if names == [] {
      assert Split("", ',') == [""];
      assert TrimAll([""]) == [""];
    } else {
      JoinSplit(names, ',');
      forall i | 0 <= i < |names| ensures TrimSpace(names[i]) == names[i] {
        TrimSpaceOfTrimmed(names[i]);
      }
      assert TrimAll(names) == names;
      DropEmptyOfNonEmpty(names);
    }
  }

  /** The owners the loop has kept after its first `n` pieces. */
  function KeptOwners(raw: seq<string>, n: nat): seq<string>
    requires n <= |raw|
  {
    if n == 0 then []
    else
      KeptOwners(raw, n - 1) + Kept(TrimSpace(raw[n - 1]))
  }

  /** Keeping piece by piece is trimming and dropping the prefix. */
  lemma {:induction false} KeptOwnersPrefix(raw: seq<string>, n: nat)
    requires n <= |raw|
    ensures KeptOwners(raw, n) == DropEmpty(TrimAll(raw)[..n])
  {
    var trimmed := TrimAll(raw);
    if n == 0 {
      assert trimmed[..0] == [];
    } else {
      KeptOwnersPrefix(raw, n - 1);
      DropEmptyStep(trimmed, n - 1);
      assert trimmed[n - 1] == TrimSpace(raw[n - 1]);
    }
  }

  /** The owner loop of `tenant create`: split, trim, skip the empty pieces. */
  method ParseOwners(owners: string) returns (list: seq<string>)
    ensures list == OwnerList(owners)
  {
    var raw := Split(owners, ',');
    list := [];
    for i := 0 to |raw|
      invariant list == KeptOwners(raw, i)
    {
      var o := TrimSpace(raw[i]);
      if o == "" {
        continue;
      }
      list := list + [o];
    }
    KeptOwnersPrefix(raw, |raw|);
    assert TrimAll(raw)[..|raw|] == TrimAll(raw);
  }

  // ---------------------------------------------------------------------
  // tenant create: the policy rules
  // ---------------------------------------------------------------------

  /** `json.Unmarshal` of one flag value into a rule: the rule, or None for malformed JSON. */
  type Decoder<T> = string -> Option<T>

  /** Every value decoded, in order; the first malformed value is the error. */
  function DecodeAll<T>(decode: Decoder<T>, raws: seq<string>): (r: Result<seq<T>, string>)
    ensures r.Ok? <==> forall raw <- raws :: decode(raw).Some?
    ensures r.Ok? ==> |r.value| == |raws| && forall i | 0 <= i < |raws| :: decode(raws[i]) == Some(r.value[i])
    ensures r.Err? ==> exists i | 0 <= i < |raws| ::
      (raws[i] == r.error && decode(raws[i]).None? && forall j | 0 <= j < i :: decode(raws[j]).Some?)
  {
    if raws == [] then Ok([])
    else if decode(raws[0]).None? then Err(raws[0])
    else
      var rest := DecodeAll(decode, raws[1..]);
      assert forall raw <- raws :: raw == raws[0] || raw in raws[1..];
      match rest
      case Err(bad) =>
        ghost var i :| 0 <= i < |raws[1..]| && raws[1..][i] == bad && decode(raws[1..][i]).None? &&
          forall j | 0 <= j < i :: decode(raws[1..][j]).Some?;
        assert raws[i + 1] == bad && forall j | 1 <= j < i + 1 :: raws[j] == raws[1..][j - 1];
        Err(bad)
      case Ok(rules) => Ok([decode(raws[0]).value] + rules)
  }

  /** One of the two decoding loops of `tenant create`. */
  method DecodeRules<T>(decode: Decoder<T>, raws: seq<string>) returns (r: Result<seq<T>, string>)
    ensures r == DecodeAll(decode, raws)
  {
    var rules: seq<T> := [];
    for i := 0 to |raws|
      invariant DecodeAll(decode, raws[..i]) == Ok(rules)
    {
      var rule := decode(raws[i]);
      if rule.None? {
        DecodeAllAt(decode, raws, i);
        return Err(raws[i]);
      }
      DecodeAllSnoc(decode, raws[..i], raws[i]);
      assert raws[..i + 1] == raws[..i] + [raws[i]];
      rules := rules + [rule.value];
    }
    assert raws[..|raws|] == raws;
    r := Ok(rules);
  }

  /** Decoding one more good value appends its rule. */
  lemma {:induction false} DecodeAllSnoc<T>(decode: Decoder<T>, raws: seq<string>, raw: string)
    requires DecodeAll(decode, raws).Ok? && decode(raw).Some?
    ensures DecodeAll(decode, raws + [raw]) == Ok(DecodeAll(decode, raws).value + [decode(raw).value])
  {
    var v := decode(raw).value;
    if raws == [] {
      assert raws + [raw] == [raw] && [raw][1..] == [];
      assert DecodeAll(decode, [raw]) == Ok([v] + []);
      assert DecodeAll(decode, raws) == Ok([]) && [] + [v] == [v] && [v] + [] == [v];
    } else {
      var xs := raws + [raw];
      assert xs[0] == raws[0] && xs[1..] == raws[1..] + [raw];
      assert raws[0] in raws;
      DecodeAllSnoc(decode, raws[1..], raw);
      var head := decode(raws[0]).value;
      assert DecodeAll(decode, raws).value == [head] + DecodeAll(decode, raws[1..]).value;
      assert DecodeAll(decode, xs) == Ok([head] + (DecodeAll(decode, raws[1..]).value + [v]));
      assert [head] + (DecodeAll(decode, raws[1..]).value + [v]) == ([head] + DecodeAll(decode, raws[1..]).value) + [v];
    }
  }

  /** When every value before `i` decodes and the one at `i` does not, that one is the error. */
  lemma {:induction false} DecodeAllAt<T>(decode: Decoder<T>, raws: seq<string>, i: nat)
    requires i < |raws| && decode(raws[i]).None?
    requires DecodeAll(decode, raws[..i]).Ok?
    ensures DecodeAll(decode, raws) == Err(raws[i])
  {
    if i > 0 {
      assert raws[..i][0] == raws[0];
      assert decode(raws[0]).Some?;
      assert raws[1..][..i - 1] == raws[..i][1..];
      DecodeAllAt(decode, raws[1..], i - 1);
    }
  }

  // ---------------------------------------------------------------------
  // tenant create and delete-tenant
  // ---------------------------------------------------------------------

  /** The flags of `tenant create`, with the tenant name argument. */
  datatype CreateFlags = CreateFlags(
    name: string,
    owners: string,
    tier: string,
    isolation: string,
    quota: ResourceQuota,
    podSelector: map<string, string>,
    policyTypes: seq<string>,
    ingressFrom: seq<string>,
    egressTo: seq<string>)

  /** The defaults of --tier and --isolation. */
  const DefaultTier := "bronze"
  const DefaultIsolation := "namespace"

  /** The two JSON oracles, one per rule type. */
  datatype Decoders = Decoders(ingress: Decoder<NetworkPolicyIngressRule>, egress: Decoder<NetworkPolicyEgressRule>)

  /**
   * The provisioning request `tenant create` builds, or the malformed rule
   * value that stops it: ingress values are decoded before egress values.
   */
  function RequestOf(d: Decoders, f: CreateFlags): (r: Result<CreateRequest, Error>)
    ensures r.Ok? <==> (forall raw <- f.ingressFrom :: d.ingress(raw).Some?) && (forall raw <- f.egressTo :: d.egress(raw).Some?)
    ensures r.Ok? ==> r.value.policy.podSelector == f.podSelector && r.value.policy.policyTypes == f.policyTypes
    ensures r.Ok? ==> r.value.owners == OwnerList(f.owners) && r.value.quota == f.quota
    ensures r.Ok? ==> r.value.name == f.name && r.value.isolation == f.isolation
    ensures r.Err? ==> r.error.BadJson?
  {
    match DecodeAll(d.ingress, f.ingressFrom)
    case Err(raw) => Err(BadJson("--np-ingress-from", raw))
    case Ok(ingress) =>
      match DecodeAll(d.egress, f.egressTo)
      case Err(raw) => Err(BadJson("--np-egress-to", raw))
      case Ok(egress) =>
        Ok(CreateRequest(f.name, f.tier, f.isolation, OwnerList(f.owners), f.quota,
          NetworkPolicy(f.podSelector, f.policyTypes, ingress, egress)))
  }

  /**
   * `tenant create`: a malformed rule is the command's error and nothing is
   * provisioned; otherwise provisioning runs and its result is dropped.
   */
  function TenantCreate(s: ClusterState, parse: QuantityParser, notifier: Message -> bool, d: Decoders, f: CreateFlags): (r: (ClusterState, Option<Error>))
    ensures RequestOf(d, f).Err? ==> r == (s, Some(RequestOf(d, f).error))
    ensures RequestOf(d, f).Ok? ==> r == (CreateReconciliationAsWritten(s, parse, notifier, RequestOf(d, f).value).0, None)
  {
    match RequestOf(d, f)
    case Err(e) => (s, Some(e))
    case Ok(req) => (CreateReconciliationAsWritten(s, parse, notifier, req).0, None)
  }

  /**
   * Whatever provisioning does, `tenant create` reports no error once its
   * rules decode, even when a step failed and the corrected provisioning
   * would have returned that step's error.
   */
  lemma TenantCreateHidesProvisioningErrors(s: ClusterState, parse: QuantityParser, notifier: Message -> bool, d: Decoders, f: CreateFlags)
    requires RequestOf(d, f).Ok?
    requires ProvisionSteps(s, parse, RequestOf(d, f).value).1.Some?
    ensures TenantCreate(s, parse, notifier, d, f).1.None?
    ensures CreateReconciliationIntended(s, parse, notifier, RequestOf(d, f).value).1.Some?
  {
  }

  /** A malformed rule stops `tenant create` before any call reaches the store or the notifier. */
  lemma BadRuleWritesNothing(s: ClusterState, parse: QuantityParser, notifier: Message -> bool, d: Decoders, f: CreateFlags)
    requires exists raw <- f.ingressFrom :: d.ingress(raw).None?
    ensures TenantCreate(s, parse, notifier, d, f).0 == s
    ensures TenantCreate(s, parse, notifier, d, f).1.Some?
  {
  }

  /** With the default isolation the tenant's namespace is the first object provisioned. */
  lemma DefaultIsolationCreatesNamespaceFirst(req: CreateRequest)
    requires req.isolation == DefaultIsolation
    ensures ProvisionKeys(req)[0] == NamespaceKey(TenantNamespace(req.name))
    ensures |ProvisionKeys(req)| == 4
  {
  }

  /** The pod selector loop: every label copied. */
  method CopyLabels(m: map<string, string>) returns (copy: map<string, string>)
    ensures copy == m
  {
    copy := map[];
    var rest := m.Keys;
    while rest != {}
      invariant rest <= m.Keys
      invariant copy == map k | k in m.Keys - rest :: m[k]
      decreases |rest|
    {
      var k :| k in rest;
      copy := copy[k := m[k]];
      rest := rest - {k};
    }
  }

  /** The policy types loop: every type appended in order. */
  method CopyTypes(types: seq<string>) returns (copy: seq<string>)
    ensures copy == types
  {
    copy := [];
    for i := 0 to |types|
      invariant copy == types[..i]
    {
      copy := copy + [types[i]];
    }
    assert types[..|types|] == types;
  }

  /** `tenant create` against the client. */
  method TenantCreateCommand(c: Cluster, parse: QuantityParser, notifier: Message -> bool, d: Decoders, f: CreateFlags) returns (err: Option<Error>)
    modifies c
    ensures (c.State(), err) == TenantCreate(old(c.State()), parse, notifier, d, f)
  {
    var owners := ParseOwners(f.owners);
    var podSelector := CopyLabels(f.podSelector);
    var policyTypes := CopyTypes(f.policyTypes);
    var ingress := DecodeRules(d.ingress, f.ingressFrom);
    if ingress.Err? {
      return Some(BadJson("--np-ingress-from", ingress.error));
    }
    var egress := DecodeRules(d.egress, f.egressTo);
    if egress.Err? {
      return Some(BadJson("--np-egress-to", egress.error));
    }
    var req := CreateRequest(f.name, f.tier, f.isolation, owners, f.quota,
      NetworkPolicy(podSelector, policyTypes, ingress.value, egress.value));
    // The provisioning result is discarded.
    var _ := CreateReconciliation(c, parse, notifier, req);
    err := None;
  }

  /** `delete-tenant`: unlike `tenant create`, it returns the cleanup's error. */
  method DeleteTenantCommand(c: Cluster, notifier: Message -> bool, name: string) returns (err: Option<Error>)
    modifies c
    ensures (c.State(), err) == DeleteReconciliationSpec(old(c.State()), notifier, name)
    ensures err.None? ==> forall t <- DeleteTargets(TenantKeyOf(old(c.State()), name), name) :: Gone(c.State(), t.key)
  {
    err := DeleteReconciliation(c, notifier, name);
  }
}
