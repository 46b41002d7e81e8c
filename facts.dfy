/**
 * The facts module (`modules/updu_facts.py`): resolve the requested fact
 * subsets, let each resolved subset's collector query the device and build
 * its facts, merge them, and publish every key under the `ansible_net_`
 * prefix.
 */
module Facts {
  import opened Wrappers
  import opened Transport
  import opened Cliconf
  import opened ModuleUtils

  /** `VALID_SUBSETS`: the keys of `FACT_SUBSETS`, whose only entry is `default`. */
  const ValidSubsets: set<string> := {"default"}

  /** The prefix every published fact key gets. */
  const Prefix: string := "ansible_net_"

  /** The `fail_json` message for an unknown subset (the valid names joined with ", " — here just one). */
  function SubsetMessage(name: string): string {
    "Subset must be one of [default], got " + name
  }

  /** A fact value: a string, the list of resolved subset names (its order is unspecified), or JSON null. */
  datatype FactValue = Str(s: string) | Names(names: set<string>) | Null

  /** How the facts module ends when it does not return its facts. */
  datatype FactsError =
    | SubsetError(msg: string)           // `fail_json` for an unknown subset
    | ModuleError(failure: ModuleFailure) // a failure inside the module helpers
    | KeyMissing(key: string)            // a `KeyError` reading the capability document

  // ---------------------------------------------------------------------------
  // Subset resolution

  /** The running `runable_subsets` and `exclude_subsets` of the resolution loop. */
  datatype Selection = Selection(runable: set<string>, exclude: set<string>)

  predicate Negated(name: string) {
    |name| > 0 && name[0] == '!'
  }

  /** The subset a name refers to once a leading `!` is stripped. */
  function Target(name: string): string {
    if Negated(name) then name[1..] else name
  }

  /** One pass of the loop body over `name`. */
  function ScanItem(name: string, sel: Selection): Result<Selection, string> {
    if name == "all" then Success(sel.(runable := sel.runable + ValidSubsets))
    else if Negated(name) then
      var t := name[1..];
      if t == "all" then Success(sel.(exclude := sel.exclude + ValidSubsets))
      else if t !in ValidSubsets then Failure(SubsetMessage(t))
      else Success(sel.(exclude := sel.exclude + {t}))
    else if name !in ValidSubsets then Failure(SubsetMessage(name))
    else Success(sel.(runable := sel.runable + {name}))
  }

  /** The loop over `gather_subset`, from selection `sel`. */
  function ScanAll(gather: seq<string>, sel: Selection): Result<Selection, string>
    decreases |gather|
  {
    if gather == [] then Success(sel)
    else match ScanItem(gather[0], sel)
      case Failure(m) => Failure(m)
      case Success(next) => ScanAll(gather[1..], next)
  }

  /** What follows the loop: all valid subsets when none was included, minus the excluded ones, plus `default`. */
  function Finish(sel: Selection): set<string> {
    (if sel.runable == {} then ValidSubsets else sel.runable) - sel.exclude + {"default"}
  }

  /** The subset resolution of `main`. */
  function Resolve(gather: seq<string>): Result<set<string>, string> {
    match ScanAll(gather, Selection({}, {}))
    case Failure(m) => Failure(m)
    case Success(sel) => Success(Finish(sel))
  }

  /** The loop of `main` that resolves `gather_subset`. */
  method ResolveSubsets(gather: seq<string>) returns (r: Result<set<string>, string>)
    ensures r == Resolve(gather)
  {
    var runable: set<string> := {};
    var exclude: set<string> := {};
    var i := 0;
    while i < |gather|
      invariant 0 <= i <= |gather|
      invariant ScanAll(gather, Selection({}, {})) == ScanAll(gather[i..], Selection(runable, exclude))
    {
      var subset := gather[i];
      assert gather[i..][1..] == gather[i + 1..];
      i := i + 1;
      if subset == "all" {
        runable := runable + ValidSubsets;
        continue;
      }
      var excluding: bool;
      if |subset| > 0 && subset[0] == '!' {
        subset := subset[1..];
        if subset == "all" {
          exclude := exclude + ValidSubsets;
          continue;
        }
        excluding := true;
      } else {
        excluding := false;
      }
      if subset !in ValidSubsets {
        return Failure(SubsetMessage(subset));
      }
      if excluding {
        exclude := exclude + {subset};
      } else {
        runable := runable + {subset};
      }
    }
    assert gather[i..] == [];
    if runable == {} {
      runable := ValidSubsets;
    }
    runable := runable - exclude;
    runable := runable + {"default"};
    r := Success(runable);
  }

  // The resolution stated without the loop.

  /** A name the loop rejects: after stripping `!`, neither `all` nor a valid subset. */
  predicate Rejected(name: string) {
    Target(name) != "all" && Target(name) !in ValidSubsets
  }

  /** The subsets the names include: the valid plain names, and every valid subset if `all` is among them. */
  function Included(gather: seq<string>): set<string> {
    (set n | n in gather && !Negated(n) && n in ValidSubsets) + (if "all" in gather then ValidSubsets else {})
  }

  /** The subsets the names exclude: the valid `!name`s, and every valid subset if `!all` is among them. */
  function Excluded(gather: seq<string>): set<string> {
    (set n | n in gather && Negated(n) && n[1..] in ValidSubsets :: n[1..]) + (if "!all" in gather then ValidSubsets else {})
  }

  /** The position of the first rejected name, or `|gather|`. */
  function FirstRejected(gather: seq<string>): (k: nat)
    ensures k <= |gather|
    ensures forall j :: 0 <= j < k ==> !Rejected(gather[j])
    ensures k < |gather| ==> Rejected(gather[k])
    decreases |gather|
  {
    if gather == [] || Rejected(gather[0]) then 0 else 1 + FirstRejected(gather[1..])
  }

  /** What one name includes. */
  function IncludedBy(n: string): set<string> {
    if n == "all" then ValidSubsets else if !Negated(n) && n in ValidSubsets then {n} else {}
  }

  /** What one name excludes. */
  function ExcludedBy(n: string): set<string> {
    if n == "!all" then ValidSubsets else if Negated(n) && n[1..] in ValidSubsets then {n[1..]} else {}
  }

  lemma {:induction false} IncludedCons(n: string, t: seq<string>)
    ensures Included([n] + t) == IncludedBy(n) + Included(t)
  {
    var g := [n] + t;
    assert forall m :: m in g <==> m == n || m in t;
  }

  lemma {:induction false} ExcludedCons(n: string, t: seq<string>)
    ensures Excluded([n] + t) == ExcludedBy(n) + Excluded(t)
  {
    var g := [n] + t;
    assert forall m :: m in g <==> m == n || m in t;
    var single := if Negated(n) && n[1..] in ValidSubsets then {n[1..]} else {};
    assert (set m | m in g && Negated(m) && m[1..] in ValidSubsets :: m[1..])
        == single + (set m | m in t && Negated(m) && m[1..] in ValidSubsets :: m[1..]);
  }

  /** One accepted name adds what it includes and what it excludes. */
  lemma {:induction false} ScanItemAccepts(n: string, sel: Selection)
    requires !Rejected(n)
    ensures ScanItem(n, sel) == Success(Selection(sel.runable + IncludedBy(n), sel.exclude + ExcludedBy(n)))
  {
    if n == "all" {
      assert !Negated(n) && n != "!all";
      assert sel.exclude + {} == sel.exclude;
    } else if Negated(n) {
      if n[1..] == "all" {
        assert n == "!all" by { assert n == [n[0]] + n[1..]; }
        assert IncludedBy(n) == {};
        assert sel.runable + {} == sel.runable;
      } else {
        assert n != "!all";
        assert n != "all" by { assert "all"[0] == 'a'; }
        assert IncludedBy(n) == {} && ExcludedBy(n) == {n[1..]};
        assert sel.runable + {} == sel.runable;
      }
    } else {
      assert n != "!all" by { assert "!all"[0] == '!'; }
      assert IncludedBy(n) == {n} && ExcludedBy(n) == {};
      assert sel.exclude + {} == sel.exclude;
    }
  }

  /**
   * The loop, from any selection, either fails on the first rejected name,
   * with the message naming it (stripped of `!`), or adds exactly the
   * included and excluded subsets of all the names.
   */
  lemma {:induction false} ScanAllSpec(gather: seq<string>, sel: Selection)
    ensures var k := FirstRejected(gather);
      ScanAll(gather, sel)
      == if k < |gather| then Failure(SubsetMessage(Target(gather[k])))
         else Success(Selection(sel.runable + Included(gather), sel.exclude + Excluded(gather)))
    decreases |gather|
  {
    if gather == [] {
      assert Included([]) == {};
      assert Excluded([]) == {};
      assert sel.runable + {} == sel.runable && sel.exclude + {} == sel.exclude;
    } else {
      var n, t := gather[0], gather[1..];
      assert gather == [n] + t;
      IncludedCons(n, t);
      ExcludedCons(n, t);
      if !Rejected(n) {
        ScanItemAccepts(n, sel);
        var next := Selection(sel.runable + IncludedBy(n), sel.exclude + ExcludedBy(n));
        ScanAllSpec(t, next);
        assert sel.runable + Included(gather) == next.runable + Included(t);
        assert sel.exclude + Excluded(gather) == next.exclude + Excluded(t);
      }
    }
  }

  /**
   * The resolution in set terms: it fails exactly when some name is
   * rejected, naming the first; otherwise it is (included, or every valid
   * subset when nothing was included) minus excluded, plus `default`.
   */
  lemma {:induction false} ResolveSpec(gather: seq<string>)
    ensures Resolve(gather).Failure? <==> exists j :: 0 <= j < |gather| && Rejected(gather[j])
    ensures Resolve(gather).Failure? ==>
      Resolve(gather).error == SubsetMessage(Target(gather[FirstRejected(gather)]))
    ensures Resolve(gather).Success? ==>
      Resolve(gather).value
      == (if Included(gather) == {} then ValidSubsets else Included(gather)) - Excluded(gather) + {"default"}
  {
    ScanAllSpec(gather, Selection({}, {}));
    assert {} + Included(gather) == Included(gather);
    assert {} + Excluded(gather) == Excluded(gather);
  }

  /** The resolved set always lies within the valid subsets and always holds `default`; with `default` the only valid subset, it is exactly `{"default"}`. */
  lemma {:induction false} ResolvedIsDefault(gather: seq<string>)
    ensures Resolve(gather).Success? ==> Resolve(gather).value <= ValidSubsets
    ensures Resolve(gather).Success? ==> "default" in Resolve(gather).value
    ensures Resolve(gather).Success? ==> Resolve(gather).value == {"default"}
  {
    ResolveSpec(gather);
  }

  /** `default` survives its own exclusion, `!all` still leaves `default`, and the first unknown name is reported. */
  lemma {:induction false} ResolveExamples()
    ensures Resolve(["default", "!default"]) == Success({"default"})
    ensures Resolve(["!all"]) == Success({"default"})
    ensures Resolve(["all", "!bogus"]) == Failure("Subset must be one of [default], got bogus")
    ensures Resolve(["bogus", "!!default"]) == Failure("Subset must be one of [default], got bogus")
  {
    var empty := Selection({}, {});
    assert "default" != "all" && "!default"[1..] == "default" && "!all"[1..] == "all" && "!bogus"[1..] == "bogus";
    assert "bogus" != "all" && "bogus" !in ValidSubsets;
    var g1 := ["default", "!default"];
    assert !Negated("default") && "default" in ValidSubsets;
    assert {} + {"default"} == {"default"};
    assert ScanItem("default", empty) == Success(Selection({"default"}, {}));
    assert ScanItem("!default", Selection({"default"}, {})) == Success(Selection({"default"}, {"default"}));
    assert g1[1..] == ["!default"] && g1[1..][1..] == [];
    assert ScanAll(g1, empty) == Success(Selection({"default"}, {"default"}));
    assert ScanItem("!all", empty) == Success(Selection({}, {"default"}));
    assert ["!all"][1..] == [];
    assert ScanAll(["!all"], empty) == Success(Selection({}, {"default"}));
    var g3 := ["all", "!bogus"];
    assert ScanItem("all", empty) == Success(Selection({"default"}, {}));
    assert g3[1..] == ["!bogus"];
    assert ScanItem("!bogus", Selection({"default"}, {})) == Failure(SubsetMessage("bogus"));
    assert ScanAll(g3, empty) == Failure(SubsetMessage("bogus"));
    assert ScanAll(["bogus", "!!default"], empty) == Failure(SubsetMessage("bogus"));
    assert SubsetMessage("bogus") == "Subset must be one of [default], got bogus";
  }

  // ---------------------------------------------------------------------------
  // Platform facts

  /** The three optional items `platform_facts` copies, in its order. */
  const Items: seq<string> := ["model", "version", "hostname"]

  /** The device-info key for an item. */
  function InfoKey(item: string): string {
    "network_os_" + item
  }

  /** `facts` with `item` copied from the device info when present and non-empty. */
  function CopyItem(facts: map<string, FactValue>, info: map<string, string>, item: string): map<string, FactValue> {
    if InfoKey(item) in info && info[InfoKey(item)] != "" then facts[item := Str(info[InfoKey(item)])] else facts
  }

  /** `facts` after copying each of `items`, in order. */
  function CopyItems(facts: map<string, FactValue>, info: map<string, string>, items: seq<string>): map<string, FactValue>
    decreases |items|
  {
    if items == [] then facts
    else CopyItem(CopyItems(facts, info, items[..|items| - 1]), info, items[|items| - 1])
  }

  /** The `api` fact: the document's `network_api`, null when it has none. */
  function ApiValue(api: Option<string>): FactValue {
    if api.Some? then Str(api.value) else Null
  }

  /** `Default.platform_facts()` over the capability document; `python_version` is an input. */
  function PlatformFacts(caps: Capabilities, pythonVersion: string): Result<map<string, FactValue>, FactsError> {
    if "network_os" !in caps.deviceInfo then Failure(KeyMissing("network_os"))
    else
      var facts := map["system" := Str(caps.deviceInfo["network_os"])];
      var facts := CopyItems(facts, caps.deviceInfo, Items);
      Success(facts["api" := ApiValue(caps.networkApi)]["python_version" := Str(pythonVersion)])
  }

  /** `Default.platform_facts()`, with its loop over the three items. */
  method PlatformFactsOf(caps: Capabilities, pythonVersion: string) returns (r: Result<map<string, FactValue>, FactsError>)
    ensures r == PlatformFacts(caps, pythonVersion)
  {
    var info := caps.deviceInfo;
    if "network_os" !in info {
      return Failure(KeyMissing("network_os"));
    }
    var facts: map<string, FactValue> := map["system" := Str(info["network_os"])];
    ghost var base := facts;
    for i := 0 to |Items|
      invariant facts == CopyItems(base, info, Items[..i])
    {
      var item := Items[i];
      assert Items[..i + 1][..i] == Items[..i];
      var key := "network_os_" + item;
      if key in info && info[key] != "" {
        facts := facts[item := Str(info[key])];
      }
    }
    assert Items[..|Items|] == Items;
    facts := facts["api" := ApiValue(caps.networkApi)];
    facts := facts["python_version" := Str(pythonVersion)];
    r := Success(facts);
  }

  lemma {:induction false} CopyItemsKeys(facts: map<string, FactValue>, info: map<string, string>, items: seq<string>)
    ensures var r := CopyItems(facts, info, items);
      && (forall k :: k in r <==> k in facts || (k in items && InfoKey(k) in info && info[InfoKey(k)] != ""))
      && (forall k :: k in items && InfoKey(k) in info && info[InfoKey(k)] != "" ==> r[k] == Str(info[InfoKey(k)]))
      && (forall k :: k in facts && k !in items ==> r[k] == facts[k])
    decreases |items|
  {
    if items != [] {
      var init, last := items[..|items| - 1], items[|items| - 1];
      CopyItemsKeys(facts, info, init);
      assert forall k :: k in items <==> k in init || k == last by {
        assert items == init + [last];
      }
    }
  }

  /**
   * `platform_facts` fails only without `network_os`; otherwise it holds
   * `system`, `api` and `python_version`, and holds `model`, `version` and
   * `hostname` exactly when the matching `network_os_*` value is present and
   * non-empty, copied as it is; it holds nothing else.
   */
  lemma {:induction false} PlatformFactsSpec(caps: Capabilities, pythonVersion: string)
    ensures PlatformFacts(caps, pythonVersion).Failure? <==> "network_os" !in caps.deviceInfo
    ensures PlatformFacts(caps, pythonVersion).Success? ==>
      var f := PlatformFacts(caps, pythonVersion).value;
      && f.Keys <= {"system", "model", "version", "hostname", "api", "python_version"}
      && "system" in f && f["system"] == Str(caps.deviceInfo["network_os"])
      && "api" in f && f["api"] == ApiValue(caps.networkApi)
      && "python_version" in f && f["python_version"] == Str(pythonVersion)
      && (forall item :: item in Items ==>
            (item in f <==> InfoKey(item) in caps.deviceInfo && caps.deviceInfo[InfoKey(item)] != ""))
      && (forall item :: item in Items && item in f ==> f[item] == Str(caps.deviceInfo[InfoKey(item)]))
  {
    if "network_os" in caps.deviceInfo {
      var base := map["system" := Str(caps.deviceInfo["network_os"])];
      CopyItemsKeys(base, caps.deviceInfo, Items);
      assert "system" !in Items;
    }
  }

  // ---------------------------------------------------------------------------
  // Namespacing

  /** The published key of a fact. */
  function Published(k: string): string {
    Prefix + k
  }

  lemma {:induction false} PublishedInjective(a: string, b: string)
    ensures Published(a) == Published(b) <==> a == b
  {
    if Published(a) == Published(b) {
      assert a == Published(a)[|Prefix|..];
      assert b == Published(b)[|Prefix|..];
    }
  }

  /** The published facts, stated as a map. */
  function Namespaced(facts: map<string, FactValue>): (r: map<string, FactValue>) {
    map k | k in (set j | j in facts :: Published(j)) :: facts[k[|Prefix|..]]
  }

  /** A map with exactly the published keys, each holding its fact's value, is the published map. */
  lemma {:induction false} NamespacedIs(facts: map<string, FactValue>, r: map<string, FactValue>)
    requires r.Keys == set k | k in facts :: Published(k)
    requires forall k :: k in facts ==> r[Published(k)] == facts[k]
    ensures r == Namespaced(facts)
  {
    forall p | p in r
      ensures p in Namespaced(facts) && r[p] == Namespaced(facts)[p]
    {
      var k :| k in facts && p == Published(k);
      assert p[|Prefix|..] == k;
    }
  }

  /** The loop of `main` that moves every fact under the `ansible_net_` prefix, with its value unchanged. */
  method NamespaceFacts(facts: map<string, FactValue>) returns (r: map<string, FactValue>)
    ensures r.Keys == set k | k in facts :: Published(k)
    ensures forall k :: k in facts ==> r[Published(k)] == facts[k]
    ensures r == Namespaced(facts)
  {
    r := map[];
    var todo := facts.Keys;
    while todo != {}
      invariant todo <= facts.Keys
      invariant r.Keys == set k | k in facts.Keys - todo :: Published(k)
      invariant forall k :: k in facts.Keys - todo ==> r[Published(k)] == facts[k]
      decreases todo
    {
      var key :| key in todo;
      forall k | k in facts.Keys - todo
        ensures Published(k) != Published(key)
      {
        PublishedInjective(k, key);
      }
      r := r[Published(key) := facts[key]];
      todo := todo - {key};
    }
    assert facts.Keys - todo == facts.Keys;
    NamespacedIs(facts, r);
  }

  /** One fact, published. */
  lemma {:induction false} NamespacedAt(facts: map<string, FactValue>, k: string)
    requires k in facts
    ensures Published(k) in Namespaced(facts) && Namespaced(facts)[Published(k)] == facts[k]
  {
    assert Published(k)[|Prefix|..] == k;
  }

  /**
   * Namespacing keeps every fact, under `ansible_net_` + its key, with its
   * value unchanged, and adds nothing; a published key with the prefix
   * stripped is the fact's own key.
   */
  lemma {:induction false} NamespacedSpec(facts: map<string, FactValue>)
    ensures forall k :: k in facts ==> Published(k) in Namespaced(facts) && Namespaced(facts)[Published(k)] == facts[k]
    ensures forall p :: p in Namespaced(facts) ==>
      |Prefix| <= |p| && p[..|Prefix|] == Prefix && p[|Prefix|..] in facts
  {
    forall k | k in facts
      ensures Published(k) in Namespaced(facts) && Namespaced(facts)[Published(k)] == facts[k]
    {
      assert Published(k)[|Prefix|..] == k;
    }
    forall p | p in Namespaced(facts)
      ensures |Prefix| <= |p| && p[..|Prefix|] == Prefix && p[|Prefix|..] in facts
    {
      var j :| j in facts && p == Published(j);
      assert p[|Prefix|..] == j;
    }
  }

  // ---------------------------------------------------------------------------
  // The collector and the module run

  /** A `Default` collector: its capability document, facts and responses. */
  class Default {
    /** The module object (`self.module`). */
    const owner: Module
    /** `_capabilities`, read once when the collector is made. */
    const capabilities: Capabilities
    var facts: map<string, FactValue>
    var responses: Option<seq<string>>

    constructor (owner: Module, capabilities: Capabilities)
      ensures this.owner == owner && this.capabilities == capabilities
      ensures facts == map[] && responses == None
    {
      this.owner := owner;
      this.capabilities := capabilities;
      facts := map[];
      responses := None;
    }

    /** `populate()`: run `show version` without `check_rc`, then merge the platform facts. */
    method Populate(pythonVersion: string) returns (r: Result<(), FactsError>)
      requires owner.Valid()
      modifies this, owner, owner.plugin.session
      ensures owner.Valid()
      ensures var a := RunCommandsStep(owner.View(), old(owner.CacheState()), Some([ShowVersion]), false,
                                       old(owner.plugin.session.sent));
        && owner.CacheState() == a.cache
        && owner.plugin.session.sent == old(owner.plugin.session.sent) + a.sent
        && (a.result.Failure? ==> r == Failure(ModuleError(a.result.error)) && facts == old(facts))
        && (a.result.Success? ==> responses == Some(a.result.value))
        && (a.result.Success? ==> match PlatformFacts(capabilities, pythonVersion)
              case Failure(e) => r == Failure(e) && facts == old(facts)
              case Success(pf) => r == Success(()) && facts == old(facts) + pf)
    {
      var resp := owner.RunCommands(Some([ShowVersion]), false);
      if resp.Failure? {
        return Failure(ModuleError(resp.error));
      }
      responses := Some(resp.value);
      var pf := PlatformFactsOf(capabilities, pythonVersion);
      if pf.Failure? {
        return Failure(pf.error);
      }
      facts := facts + pf.value;
      r := Success(());
    }
  }

  /** `Default(owner)`: the collector's constructor reads the capability document first. */
  method NewDefault(owner: Module) returns (r: Result<Default, FactsError>)
    requires owner.Valid()
    modifies owner, owner.plugin.session
    ensures owner.Valid()
    ensures var a := CapabilitiesStep(owner.View(), old(owner.CacheState()), old(owner.plugin.session.sent));
      && owner.CacheState() == a.cache
      && owner.plugin.session.sent == old(owner.plugin.session.sent) + a.sent
      && (a.result.Failure? ==> r == Failure(ModuleError(a.result.error)))
      && (a.result.Success? ==>
            && r.Success? && fresh(r.value) && r.value.owner == owner
            && r.value.capabilities == a.result.value && r.value.facts == map[] && r.value.responses == None)
  {
    var caps := owner.GetCapabilities();
    if caps.Failure? {
      return Failure(ModuleError(caps.error));
    }
    var d := new Default(owner, caps.value);
    r := Success(d);
  }

  /** The outcome of a facts run: the published facts, the module's cache, and the commands sent. */
  datatype Run = Run(result: Result<map<string, FactValue>, FactsError>, cache: Cache, sent: seq<Command>)

  /**
   * The facts module with `gather_subset` and an opaque `python_version`,
   * on a module object with cache `c`, the plugin's history being `h`. The
   * resolved set is always `{"default"}` (ResolvedIsDefault), so exactly one
   * `Default` collector runs.
   */
  function GatherFactsRun(p: Plugin, c: Cache, gather: seq<string>, pythonVersion: string, h: seq<Command>): Run {
    match Resolve(gather)
    case Failure(m) => Run(Failure(SubsetError(m)), c, [])
    case Success(subsets) => CollectRun(p, c, subsets, pythonVersion, h)
  }

  /** A `Default` collector is made (reading the capability document), populates, and its facts are published. */
  function CollectRun(p: Plugin, c: Cache, subsets: set<string>, pythonVersion: string, h: seq<Command>): Run {
    var a := CapabilitiesStep(p, c, h);
    match a.result
    case Failure(e) => Run(Failure(ModuleError(e)), a.cache, a.sent)
    case Success(caps) =>
      var b := PopulateRun(p, a.cache, caps, subsets, pythonVersion, h + a.sent);
      Run(b.result, b.cache, a.sent + b.sent)
  }

  /** The collector made with document `caps` populates, then its facts are merged and published. */
  function PopulateRun(p: Plugin, c: Cache, caps: Capabilities, subsets: set<string>, pythonVersion: string, h: seq<Command>): Run {
    var b := RunCommandsStep(p, c, Some([ShowVersion]), false, h);
    match b.result
    case Failure(e) => Run(Failure(ModuleError(e)), b.cache, b.sent)
    case Success(_) =>
      match PlatformFacts(caps, pythonVersion)
      case Failure(e) => Run(Failure(e), b.cache, b.sent)
      case Success(pf) => Run(Success(Namespaced(map["gather_subset" := Names(subsets)] + pf)), b.cache, b.sent)
  }

  lemma {:induction false} MergeIntoEmpty(pf: map<string, FactValue>)
    ensures map[] + pf == pf
  {
    assert (map[] + pf).Keys == pf.Keys;
  }

  /** The freshly made collector `inst` populates; its facts and `gather_subset` are published. */
  method Publish(inst: Default, subsets: set<string>, pythonVersion: string)
    returns (r: Result<map<string, FactValue>, FactsError>)
    requires inst.owner.Valid() && inst.facts == map[]
    modifies inst, inst.owner, inst.owner.plugin.session
    ensures inst.owner.Valid()
    ensures var x := PopulateRun(inst.owner.View(), old(inst.owner.CacheState()), inst.capabilities, subsets, pythonVersion,
                                 old(inst.owner.plugin.session.sent));
      && r == x.result && inst.owner.CacheState() == x.cache
      && inst.owner.plugin.session.sent == old(inst.owner.plugin.session.sent) + x.sent
  {
    var populated := inst.Populate(pythonVersion);
    if populated.Failure? {
      return Failure(populated.error);
    }
    MergeIntoEmpty(PlatformFacts(inst.capabilities, pythonVersion).value);
    var facts := map["gather_subset" := Names(subsets)] + inst.facts;
    var published := NamespaceFacts(facts);
    r := Success(published);
  }

  /** `main()` of the facts module; the published facts are what `exit_json` returns. */
  method GatherFacts(owner: Module, gather: seq<string>, pythonVersion: string)
    returns (r: Result<map<string, FactValue>, FactsError>)
    requires owner.Valid()
    modifies owner, owner.plugin.session
    ensures owner.Valid()
    ensures var x := GatherFactsRun(owner.View(), old(owner.CacheState()), gather, pythonVersion, old(owner.plugin.session.sent));
      && r == x.result && owner.CacheState() == x.cache
      && owner.plugin.session.sent == old(owner.plugin.session.sent) + x.sent
  {
    var subsets := ResolveSubsets(gather);
    if subsets.Failure? {
      assert owner.plugin.session.sent + [] == owner.plugin.session.sent;
      return Failure(SubsetError(subsets.error));
    }
    ResolvedIsDefault(gather);
    ghost var h := owner.plugin.session.sent;
    var inst := NewDefault(owner);
    if inst.Failure? {
      return Failure(inst.error);
    }
    ghost var ha := owner.plugin.session.sent;
    r := Publish(inst.value, subsets.value, pythonVersion);
    Assoc(h, ha[|h|..], owner.plugin.session.sent[|ha|..]);
  }

  /**
   * What a successful run publishes about the collector made with document
   * `caps`: every key carries the `ansible_net_` prefix, and `gather_subset`,
   * `python_version`, `api` and `system` hold their values.
   */
  predicate PublishedFacts(f: map<string, FactValue>, caps: Capabilities, subsets: set<string>, pythonVersion: string) {
    && Published("gather_subset") in f && f[Published("gather_subset")] == Names(subsets)
    && Published("python_version") in f && f[Published("python_version")] == Str(pythonVersion)
    && Published("api") in f && f[Published("api")] == ApiValue(caps.networkApi)
    && "network_os" in caps.deviceInfo
    && Published("system") in f && f[Published("system")] == Str(caps.deviceInfo["network_os"])
    && (forall k :: k in f ==> |Prefix| <= |k| && k[..|Prefix|] == Prefix)
  }

  /** Merging `gather_subset` into the platform facts and publishing them gives PublishedFacts. */
  lemma {:induction false} PublishSpec(caps: Capabilities, subsets: set<string>, pythonVersion: string)
    requires PlatformFacts(caps, pythonVersion).Success?
    ensures PublishedFacts(Namespaced(map["gather_subset" := Names(subsets)] + PlatformFacts(caps, pythonVersion).value),
                           caps, subsets, pythonVersion)
  {
    PlatformFactsSpec(caps, pythonVersion);
    var pf := PlatformFacts(caps, pythonVersion).value;
    var facts := map["gather_subset" := Names(subsets)] + pf;
    assert "gather_subset" !in pf;
    NamespacedAt(facts, "gather_subset");
    NamespacedAt(facts, "python_version");
    NamespacedAt(facts, "api");
    NamespacedAt(facts, "system");
    NamespacedSpec(facts);
  }

  /**
   * The collector's stage: it fails for a missing key only without
   * `network_os`; on success it publishes PublishedFacts; and on a module not
   * yet connected, whose cache holds `caps`, success needs `caps` to name
   * `cliconf`.
   */
  lemma {:induction false} PopulateRunSpec(p: Plugin, c: Cache, caps: Capabilities, subsets: set<string>, pythonVersion: string, h: seq<Command>)
    ensures var x := PopulateRun(p, c, caps, subsets, pythonVersion, h);
      && (x.result.Failure? && x.result.error.KeyMissing? ==> "network_os" !in caps.deviceInfo)
      && (x.result.Success? ==> PublishedFacts(x.result.value, caps, subsets, pythonVersion))
      && (x.result.Success? && !c.connected && c.capabilities == Some(caps) ==> caps.networkApi == Some("cliconf"))
  {
    var b := RunCommandsStep(p, c, Some([ShowVersion]), false, h);
    if !c.connected {
      ConnectNeedsCliconf(p, c, h);
    }
    PlatformFactsSpec(caps, pythonVersion);
    if b.result.Success? && PlatformFacts(caps, pythonVersion).Success? {
      PublishSpec(caps, subsets, pythonVersion);
    }
  }

  /**
   * A facts run fails with the subset message exactly when resolution fails,
   * and then sends nothing. A successful run publishes every fact under
   * `ansible_net_`, with `gather_subset` set to `{"default"}` and the given
   * `python_version`; on a module not yet connected, the connection check
   * makes `api` be `cliconf`.
   */
  lemma {:induction false} GatherFactsSpec(p: Plugin, c: Cache, gather: seq<string>, pythonVersion: string, h: seq<Command>)
    ensures var x := GatherFactsRun(p, c, gather, pythonVersion, h);
      && (Resolve(gather).Failure? ==> x == Run(Failure(SubsetError(Resolve(gather).error)), c, []))
      && (x.result.Failure? && x.result.error.SubsetError? ==> Resolve(gather).Failure?)
      && (x.result.Success? ==>
            var f := x.result.value;
            && Published("gather_subset") in f && f[Published("gather_subset")] == Names({"default"})
            && Published("python_version") in f && f[Published("python_version")] == Str(pythonVersion)
            && (!c.connected ==> Published("api") in f && f[Published("api")] == Str("cliconf"))
            && (forall k :: k in f ==> |Prefix| <= |k| && k[..|Prefix|] == Prefix))
  {
    match Resolve(gather)
    case Failure(_) =>
    case Success(subsets) =>
      ResolvedIsDefault(gather);
      var a := CapabilitiesStep(p, c, h);
      CapabilitiesMemoised(p, c, h);
      if a.result.Success? {
        PopulateRunSpec(p, a.cache, a.result.value, subsets, pythonVersion, h + a.sent);
      }
  }

  /**
   * On a fresh module the capability query always yields `network_os`, so
   * a facts run never fails for a missing key, and a successful one
   * publishes `system` as `updu`.
   */
  lemma {:induction false} GatherFactsFresh(p: Plugin, gather: seq<string>, pythonVersion: string, h: seq<Command>)
    ensures var x := GatherFactsRun(p, Fresh, gather, pythonVersion, h);
      && (x.result.Failure? ==> !x.result.error.KeyMissing?)
      && (x.result.Success? ==> Published("system") in x.result.value && x.result.value[Published("system")] == Str("updu"))
  {
    if Resolve(gather).Success? {
      var a := CapabilitiesStep(p, Fresh, h);
      CapabilitiesFirstQuery(p, h);
      if a.result.Success? {
        PopulateRunSpec(p, a.cache, a.result.value, Resolve(gather).value, pythonVersion, h + a.sent);
      }
    }
  }
}
