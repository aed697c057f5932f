// host/internal/feature: which probe releases support which capability, and how a probe can be restarted.
module Feature {
  import opened Options
  import opened Text
  import opened Version

  type Key = string

  datatype Definition = Definition(key: Key, minVersion: string)

  const SOFT_EXIT: Key := "soft_exit"

  // The package variable. The operations below take it as a parameter, so that what is proved
  // also covers the rows a later release adds.
  const REGISTRY: seq<Definition> := [
    Definition("traceroute", "1.0.7"),
    Definition("route_override", "1.0.10"),
    Definition("proxy", "1.0.12"),
    Definition("update_check", "1.0.13"),
    Definition(SOFT_EXIT, "1.2.1")
  ]

  function FindMin(registry: seq<Definition>, key: Key): Option<string> {
    if registry == [] then None
    else if registry[0].key == key then Some(registry[0].minVersion)
    else FindMin(registry[1..], key)
  }

  method MinVersion(registry: seq<Definition>, key: Key) returns (min: string, tracked: bool)
    ensures FindMin(registry, key) == if tracked then Some(min) else None
  {
    for i := 0 to |registry|
      invariant FindMin(registry, key) == FindMin(registry[i..], key)
    {
      if registry[i].key == key { return registry[i].minVersion, true; }
    }
    return "", false;
  }

  predicate Supports(registry: seq<Definition>, agentVersion: string, key: Key) {
    match FindMin(registry, key)
    case None => true
    case Some(min) => IsUnknown(min) || IsUnknown(agentVersion) || AtLeast(agentVersion, min)
  }

  function Keys(defs: seq<Definition>): seq<Key> {
    if defs == [] then [] else [defs[0].key] + Keys(defs[1..])
  }

  // The unsupported keys of the rows defs of the registry.
  function UnsupportedIn(registry: seq<Definition>, defs: seq<Definition>, agentVersion: string): seq<Key> {
    if defs == [] then []
    else
      var rest := UnsupportedIn(registry, defs[1..], agentVersion);
      if Supports(registry, agentVersion, defs[0].key) then rest else [defs[0].key] + rest
  }

  method Unsupported(registry: seq<Definition>, agentVersion: string) returns (out: seq<Key>)
    ensures out == UnsupportedIn(registry, registry, agentVersion)
  {
    out := [];
    for i := 0 to |registry|
      invariant out + UnsupportedIn(registry, registry[i..], agentVersion) == UnsupportedIn(registry, registry, agentVersion)
    {
      if !Supports(registry, agentVersion, registry[i].key) { out := out + [registry[i].key]; }
    }
  }

  // ---- forced restarts ----

  const LEGACY_CRASH_MIN_VERSION := "1.0.3"

  datatype RestartMode = RestartUnsupported | RestartCrash | RestartSoftExit

  const SIXTY_FOUR_BIT_ARCHS: set<string> :=
    {"amd64", "arm64", "mips64", "mips64le", "ppc64", "ppc64le", "riscv64", "s390x"}

  function RestartModeFor(registry: seq<Definition>, agentVersion: string, agentArch: string): RestartMode {
    if Supports(registry, agentVersion, SOFT_EXIT) then RestartSoftExit
    else if !AtLeast(agentVersion, LEGACY_CRASH_MIN_VERSION) then RestartUnsupported
    else if agentArch !in SIXTY_FOUR_BIT_ARCHS then RestartUnsupported
    else RestartCrash
  }

  function Rank(m: RestartMode): nat {
    match m
    case RestartUnsupported => 0
    case RestartCrash => 1
    case RestartSoftExit => 2
  }

  // ---- what gating means ----

  ghost predicate Placeholder(v: string) { Clean(v) in {"", "unknown", "dev"} }

  // A key is unsupported exactly if a row gives it a release, the version is a release too and comes before
  // that of the first such row. Untracked keys, placeholder versions and placeholder rows are all supported.
  lemma SupportsExactly(registry: seq<Definition>, v: string, key: Key)
    ensures !Supports(registry, v, key) <==>
            exists i: nat :: FirstRow(registry, key, i) && !Placeholder(registry[i].minVersion) && !Placeholder(v)
                             && Older(Clean(v), Clean(registry[i].minVersion))
  {
    FindFirst(registry, key);
    hide Older, Clean, Order, FindMin;
    if i: nat :| FirstRow(registry, key, i) { OrderMeaning(v, registry[i].minVersion); }
  }

  ghost predicate FirstRow(registry: seq<Definition>, key: Key, i: nat) {
    i < |registry| && registry[i].key == key && forall j :: 0 <= j < i ==> registry[j].key != key
  }

  lemma {:induction false} FindFirst(registry: seq<Definition>, key: Key)
    ensures FindMin(registry, key) == None ==> forall i: nat :: !FirstRow(registry, key, i)
    ensures FindMin(registry, key).Some? ==>
              exists i: nat :: FirstRow(registry, key, i) && registry[i].minVersion == FindMin(registry, key).value
    ensures forall i: nat :: FirstRow(registry, key, i) ==> FindMin(registry, key) == Some(registry[i].minVersion)
  {
    if registry != [] {
      var rest := registry[1..];
      FindFirst(rest, key);
      if registry[0].key == key {
        assert FirstRow(registry, key, 0);
      } else {
        forall i: nat | FirstRow(registry, key, i) ensures FindMin(registry, key) == Some(registry[i].minVersion) {
          assert FirstRow(rest, key, i - 1);
        }
        if i: nat :| FirstRow(rest, key, i) { assert FirstRow(registry, key, i + 1); }
      }
    }
  }

  // A build that cannot be identified keeps every capability and is asked to exit cleanly.
  lemma {:induction false} UnknownKeepsAll(registry: seq<Definition>, defs: seq<Definition>, v: string, arch: string)
    requires Clean(v) in {"", "unknown", "dev"}
    ensures forall key :: Supports(registry, v, key)
    ensures UnsupportedIn(registry, defs, v) == [] && RestartModeFor(registry, v, arch) == RestartSoftExit
  {
    if defs != [] { UnknownKeepsAll(registry, defs[1..], v, arch); }
  }

  // ---- monotone gating ----

  // Upgrading a known version to a later one never loses a capability, whatever the registry says.
  lemma UpgradeKeepsFeatures(registry: seq<Definition>, older: string, newer: string, key: Key)
    requires !IsUnknown(older) && !IsUnknown(newer) && Order(older, newer) <= 0
    requires Supports(registry, older, key)
    ensures Supports(registry, newer, key)
  {
    match FindMin(registry, key)
    case None =>
    case Some(min) =>
      if !IsUnknown(min) {
        OrderAntisymmetric(min, older);
        OrderAntisymmetric(min, newer);
        OrderTransitive(min, older, newer);
      }
  }

  // For one architecture an upgrade only moves up the ladder unsupported, crash, soft exit.
  lemma UpgradeClimbsLadder(registry: seq<Definition>, older: string, newer: string, arch: string)
    requires !IsUnknown(older) && !IsUnknown(newer) && Order(older, newer) <= 0
    ensures Rank(RestartModeFor(registry, older, arch)) <= Rank(RestartModeFor(registry, newer, arch))
  {
    if Supports(registry, older, SOFT_EXIT) { UpgradeKeepsFeatures(registry, older, newer, SOFT_EXIT); }
    if AtLeast(older, LEGACY_CRASH_MIN_VERSION) {
      OrderAntisymmetric(LEGACY_CRASH_MIN_VERSION, older);
      OrderAntisymmetric(LEGACY_CRASH_MIN_VERSION, newer);
      OrderTransitive(LEGACY_CRASH_MIN_VERSION, older, newer);
    }
  }

  // Rows are distinct, carry real releases, and are listed in release order.
  ghost predicate Ascending(registry: seq<Definition>) {
    && (forall i :: 0 <= i < |registry| ==> !IsUnknown(registry[i].minVersion))
    && (forall i, j :: 0 <= i < j < |registry| ==>
          registry[i].key != registry[j].key && Order(registry[i].minVersion, registry[j].minVersion) <= 0)
  }

  lemma {:induction false} FindRow(registry: seq<Definition>, i: nat)
    requires i < |registry|
    requires forall a, b :: 0 <= a < b < |registry| ==> registry[a].key != registry[b].key
    ensures FindMin(registry, registry[i].key) == Some(registry[i].minVersion)
  {
    if i > 0 {
      assert registry[0].key != registry[i].key;
      assert registry[i] == registry[1..][i - 1];
      FindRow(registry[1..], i - 1);
    }
  }

  // Where row i is unsupported, so is every later row.
  lemma UnsupportedPersists(registry: seq<Definition>, agentVersion: string, i: nat, j: nat)
    requires Ascending(registry) && i <= j < |registry|
    requires !Supports(registry, agentVersion, registry[i].key)
    ensures !Supports(registry, agentVersion, registry[j].key)
  {
    hide FindMin, Order, CleanOrder;
    FindRow(registry, i);
    FindRow(registry, j);
    if i < j {
      var low, high := registry[i].minVersion, registry[j].minVersion;
      OrderAntisymmetric(agentVersion, low);
      OrderAntisymmetric(agentVersion, high);
      OrderTransitive(agentVersion, low, high);
    }
  }

  lemma {:induction false} UnsupportedTail(registry: seq<Definition>, agentVersion: string, i: nat)
    requires Ascending(registry) && i < |registry|
    requires !Supports(registry, agentVersion, registry[i].key)
    ensures UnsupportedIn(registry, registry[i..], agentVersion) == Keys(registry[i..])
    decreases |registry| - i
  {
    if i + 1 < |registry| {
      UnsupportedPersists(registry, agentVersion, i, i + 1);
      UnsupportedTail(registry, agentVersion, i + 1);
    }
    assert registry[i..][1..] == registry[i + 1..];
  }

  // The unsupported capabilities are always a suffix of an ascending registry: there is one release
  // boundary k below which everything works and from which nothing does.
  lemma {:induction false} UnsupportedIsSuffix(registry: seq<Definition>, agentVersion: string, i: nat) returns (k: nat)
    requires Ascending(registry) && i <= |registry|
    ensures i <= k <= |registry|
    ensures UnsupportedIn(registry, registry[i..], agentVersion) == Keys(registry[k..])
    ensures forall j :: i <= j < |registry| ==> (Supports(registry, agentVersion, registry[j].key) <==> j < k)
    decreases |registry| - i
  {
    if i == |registry| {
      k := i;
    } else if Supports(registry, agentVersion, registry[i].key) {
      k := UnsupportedIsSuffix(registry, agentVersion, i + 1);
      assert registry[i..][1..] == registry[i + 1..];
    } else {
      k := i;
      UnsupportedTail(registry, agentVersion, i);
      forall j | i <= j < |registry| ensures !Supports(registry, agentVersion, registry[j].key) {
        UnsupportedPersists(registry, agentVersion, i, j);
      }
    }
  }

  // ---- the releases the source ships with ----

  lemma ReadRelease(v: string, parts: seq<string>)
    requires v == Join(parts, '.') && parts != [] && forall p :: p in parts ==> '.' !in p
    requires v != "" && IsDigit(v[0]) && forall i :: 0 <= i < |v| ==> v[i] == '.' || IsDigit(v[i])
    ensures Clean(v) == v && !IsUnknown(v) && Parts(v) == parts
  {
    TrimSpaceTrims(v);
    SplitWhole(v, '-');
    SplitJoin(parts, '.');
  }

  predicate Digits(p: string) {
    p != "" && forall i :: 0 <= i < |p| ==> IsDigit(p[i])
  }

  lemma Release(x: string, y: string, z: string) returns (v: string)
    requires Digits(x) && Digits(y) && Digits(z)
    ensures v == x + ['.'] + (y + ['.'] + z)
    ensures Clean(v) == v && !IsUnknown(v) && Parts(v) == [x, y, z]
  {
    v := x + ['.'] + (y + ['.'] + z);
    var parts := [x, y, z];
    assert Join([y, z], '.') == y + ['.'] + z by { assert [y, z][1..] == [z]; }
    assert Join(parts, '.') == v by { assert parts[1..] == [y, z]; }
    ReadRelease(v, parts);
  }

  // Release 1.y.z comes before release 1.t.u when (y, z) is lexicographically below (t, u).
  lemma EarlierRelease(y: string, z: string, t: string, u: string) returns (a: string, b: string)
    requires Digits(y) && Digits(z) && Digits(t) && Digits(u)
    requires Atoi(y) < Atoi(t) || (Atoi(y) == Atoi(t) && Atoi(z) < Atoi(u))
    ensures a == "1" + ['.'] + (y + ['.'] + z) && b == "1" + ['.'] + (t + ['.'] + u)
    ensures !IsUnknown(a) && !IsUnknown(b) && Order(a, b) < 0
  {
    a := Release("1", y, z);
    b := Release("1", t, u);
    var p, q := Parts(a), Parts(b);
    assert CoreCompare(p, q, 0, 3) == CoreCompare(p, q, 1, 3);
  }

  lemma Numbers()
    ensures Atoi("0") == 0 && Atoi("1") == 1 && Atoi("2") == 2 && Atoi("3") == 3 && Atoi("7") == 7
    ensures Atoi("10") == 10 && Atoi("12") == 12 && Atoi("13") == 13
  {
    assert "10"[1..] == "0" && "12"[1..] == "2" && "13"[1..] == "3";
    assert ParseUint("10", 0) == ParseUint("0", 1) && ParseUint("12", 0) == ParseUint("2", 1) && ParseUint("13", 0) == ParseUint("3", 1);
  }

  lemma Numerals()
    ensures Digits("0") && Digits("1") && Digits("2") && Digits("3") && Digits("7") && Digits("10") && Digits("12") && Digits("13")
  {
  }

  lemma Before7() returns (a: string, b: string)
    ensures a == "1.0.3" && b == "1.0.7" && !IsUnknown(a) && !IsUnknown(b) && Order(a, b) < 0
  {
    hide *;
    Numbers();
    Numerals();
    a, b := EarlierRelease("0", "3", "0", "7");
  }

  lemma Before10() returns (a: string, b: string)
    ensures a == "1.0.7" && b == "1.0.10" && !IsUnknown(a) && !IsUnknown(b) && Order(a, b) < 0
  {
    hide *;
    Numbers();
    Numerals();
    a, b := EarlierRelease("0", "7", "0", "10");
  }

  lemma Before12() returns (a: string, b: string)
    ensures a == "1.0.10" && b == "1.0.12" && !IsUnknown(a) && !IsUnknown(b) && Order(a, b) < 0
  {
    hide *;
    Numbers();
    Numerals();
    a, b := EarlierRelease("0", "10", "0", "12");
  }

  lemma Before13() returns (a: string, b: string)
    ensures a == "1.0.12" && b == "1.0.13" && !IsUnknown(a) && !IsUnknown(b) && Order(a, b) < 0
  {
    hide *;
    Numbers();
    Numerals();
    a, b := EarlierRelease("0", "12", "0", "13");
  }

  lemma Before21() returns (a: string, b: string)
    ensures a == "1.0.13" && b == "1.2.1" && !IsUnknown(a) && !IsUnknown(b) && Order(a, b) < 0
  {
    hide *;
    Numbers();
    Numerals();
    a, b := EarlierRelease("0", "13", "2", "1");
  }

  ghost predicate Chain(r: seq<string>) {
    && (forall i :: 0 <= i < |r| ==> !IsUnknown(r[i]))
    && (forall i :: 0 <= i < |r| - 1 ==> Order(r[i], r[i + 1]) < 0)
  }

  lemma ReadChain(r: seq<string>)
    requires |r| == 6
    requires forall i :: 0 <= i < 6 ==> !IsUnknown(r[i])
    requires Order(r[0], r[1]) < 0 && Order(r[1], r[2]) < 0 && Order(r[2], r[3]) < 0 && Order(r[3], r[4]) < 0 && Order(r[4], r[5]) < 0
    ensures Chain(r)
  {
    hide Order, IsUnknown;
  }

  lemma ShippedReleases() returns (r: seq<string>)
    ensures r == ["1.0.3", "1.0.7", "1.0.10", "1.0.12", "1.0.13", "1.2.1"]
    ensures Chain(r)
  {
    hide *;
    var a, b := Before7();
    var b', c := Before10();
    var c', d := Before12();
    var d', e := Before13();
    var e', f := Before21();
    r := [a, b, c, d, e, f];
    ReadChain(r);
  }

  lemma {:induction false} ChainOrder(r: seq<string>, i: nat, j: nat)
    requires i < j < |r| && Chain(r)
    ensures Order(r[i], r[j]) < 0
    decreases j
  {
    hide Order;
    assert Order(r[j - 1], r[j - 1 + 1]) < 0;
    if i + 1 < j {
      ChainOrder(r, i, j - 1);
      OrderTransitive(r[i], r[j - 1], r[j]);
    }
  }

  // The shipped registry is ascending, so the suffix result applies to it, and every row lies above
  // the release from which probes can be crashed.
  lemma RegistryAscends(registry: seq<Definition>)
    requires registry == REGISTRY
    ensures Ascending(registry)
    ensures forall i :: 0 <= i < |registry| ==> Order(LEGACY_CRASH_MIN_VERSION, registry[i].minVersion) < 0
  {
    hide Order, IsUnknown;
    var r := ShippedReleases();
    assert forall i :: 0 <= i < 5 ==> registry[i].minVersion == r[i + 1];
    forall i, j | 0 <= i < j < 5 ensures Order(registry[i].minVersion, registry[j].minVersion) <= 0 {
      ChainOrder(r, i + 1, j + 1);
    }
    forall i | 0 <= i < 5 ensures Order(LEGACY_CRASH_MIN_VERSION, registry[i].minVersion) < 0 {
      ChainOrder(r, 0, i + 1);
    }
  }

  // The ladder of the documentation, for any ascending registry that ends with soft_exit.
  lemma LadderThresholds(registry: seq<Definition>, v: string, arch: string)
    requires Ascending(registry) && registry != [] && registry[|registry| - 1].key == SOFT_EXIT && !IsUnknown(v)
    ensures RestartModeFor(registry, v, arch) ==
            if Order(v, registry[|registry| - 1].minVersion) >= 0 then RestartSoftExit
            else if Order(v, LEGACY_CRASH_MIN_VERSION) >= 0 && arch in SIXTY_FOUR_BIT_ARCHS then RestartCrash
            else RestartUnsupported
  {
    CrashKnown();
    FindRow(registry, |registry| - 1);
  }

  // The shipped ladder.
  lemma ShippedLadder(v: string, arch: string)
    requires !(Clean(v) in {"", "unknown", "dev"})
    ensures RestartModeFor(REGISTRY, v, arch) ==
            if Order(v, "1.2.1") >= 0 then RestartSoftExit
            else if Order(v, "1.0.3") >= 0
                    && arch in {"amd64", "arm64", "mips64", "mips64le", "ppc64", "ppc64le", "riscv64", "s390x"} then RestartCrash
            else RestartUnsupported
  {
    hide Order, Clean;
    RegistryAscends(REGISTRY);
    LadderThresholds(REGISTRY, v, arch);
  }

  // Which release each of the shipped capabilities needs.
  lemma ShippedThresholds(v: string)
    requires !(Clean(v) in {"", "unknown", "dev"})
    ensures Supports(REGISTRY, v, "traceroute") <==> Order(v, "1.0.7") >= 0
    ensures Supports(REGISTRY, v, "route_override") <==> Order(v, "1.0.10") >= 0
    ensures Supports(REGISTRY, v, "proxy") <==> Order(v, "1.0.12") >= 0
    ensures Supports(REGISTRY, v, "update_check") <==> Order(v, "1.0.13") >= 0
    ensures Supports(REGISTRY, v, "soft_exit") <==> Order(v, "1.2.1") >= 0
  {
    hide Order, Clean, FindMin;
    RegistryAscends(REGISTRY);
    FindRow(REGISTRY, 0);
    FindRow(REGISTRY, 1);
    FindRow(REGISTRY, 2);
    FindRow(REGISTRY, 3);
    FindRow(REGISTRY, 4);
  }

  lemma CrashKnown()
    ensures !IsUnknown(LEGACY_CRASH_MIN_VERSION)
  {
    hide IsUnknown, Order;
    var r := ShippedReleases();
    assert r[0] == LEGACY_CRASH_MIN_VERSION;
  }
}
