// The comma-separated target ID lists: normalised by host/internal/api before they are stored,
// parsed again by host/internal/ws when targets are synced.
module IdList {
  import opened Text

  // The trimmed non-blank entries of the parts, in order.
  function Entries(parts: seq<string>): seq<string> {
    if parts == [] then []
    else
      var id := TrimSpace(parts[|parts| - 1]);
      Entries(parts[..|parts| - 1]) + if id == "" then [] else [id]
  }

  // First occurrences only.
  function Dedup(ids: seq<string>): seq<string> {
    if ids == [] then []
    else
      var front := Dedup(ids[..|ids| - 1]);
      if ids[|ids| - 1] in front then front else front + [ids[|ids| - 1]]
  }

  function Listed(raw: string): seq<string> { Entries(Split(raw, ',')) }

  function Normalized(raw: string): string { Join(Dedup(Listed(raw)), ',') }

  function SetOf(ids: seq<string>): set<string> { set id | id in ids }

  // One more part adds its trimmed text unless that is blank, and one more entry survives unless it was seen.
  lemma EntriesStep(parts: seq<string>, i: nat)
    requires i < |parts|
    ensures Entries(parts[..i + 1]) ==
            if TrimSpace(parts[i]) == "" then Entries(parts[..i]) else Entries(parts[..i]) + [TrimSpace(parts[i])]
  {
    assert parts[..i + 1][..i] == parts[..i];
  }

  lemma DedupStep(ids: seq<string>, id: string)
    ensures Dedup(ids + [id]) == if id in Dedup(ids) then Dedup(ids) else Dedup(ids) + [id]
  {
    assert (ids + [id])[..|ids|] == ids;
  }

  method NormalizeTargetIDList(raw: string) returns (r: string)
    ensures r == Normalized(raw)
  {
    var seen: set<string> := {};
    var ids: seq<string> := [];
    var parts := Split(raw, ',');
    for i := 0 to |parts|
      invariant ids == Dedup(Entries(parts[..i]))
      invariant forall id :: id in seen <==> id in ids
    {
      var id := TrimSpace(parts[i]);
      EntriesStep(parts, i);
      DedupStep(Entries(parts[..i]), id);
      if id == "" || id in seen {
        continue;
      }
      seen := seen + {id};
      ids := ids + [id];
    }
    assert parts[..|parts|] == parts;
    r := Join(ids, ',');
  }

  method SplitIDList(raw: string) returns (r: set<string>)
    ensures r == SetOf(Listed(raw))
  {
    r := {};
    var parts := Split(raw, ',');
    for i := 0 to |parts|
      invariant r == SetOf(Entries(parts[..i]))
    {
      var id := TrimSpace(parts[i]);
      EntriesStep(parts, i);
      if id != "" { r := r + {id}; }
    }
    assert parts[..|parts|] == parts;
  }

  // ---- target overrides ----

  datatype Target = Target(id: string, host: string, disableRoute: bool)
  datatype Config = Config(id: string, host: string, disableRoute: bool)

  function ConfigOf(t: Target, disabled: set<string>): Config {
    Config(t.id, t.host, t.disableRoute || t.id in disabled)
  }

  function ConfigsOf(targets: seq<Target>, disabled: set<string>, paused: set<string>): seq<Config> {
    if targets == [] then []
    else
      var t := targets[|targets| - 1];
      ConfigsOf(targets[..|targets| - 1], disabled, paused) + if t.id in paused then [] else [ConfigOf(t, disabled)]
  }

  method BuildTargetConfigs(targets: seq<Target>, disabledRoute: string, paused: string) returns (configs: seq<Config>)
    ensures configs == ConfigsOf(targets, SetOf(Listed(disabledRoute)), SetOf(Listed(paused)))
  {
    var disabledMap := SplitIDList(disabledRoute);
    var pausedMap := SplitIDList(paused);
    configs := [];
    for i := 0 to |targets|
      invariant configs == ConfigsOf(targets[..i], disabledMap, pausedMap)
    {
      assert targets[..i + 1][..i] == targets[..i];
      if targets[i].id in pausedMap { continue; }
      configs := configs + [ConfigOf(targets[i], disabledMap)];
    }
    assert targets[..|targets|] == targets;
  }

  // ---- proofs ----

  ghost predicate Distinct(ids: seq<string>) {
    forall i, j :: 0 <= i < j < |ids| ==> ids[i] != ids[j]
  }

  // Entries of a list: trimmed, never blank, and free of commas.
  ghost predicate CleanIds(ids: seq<string>) {
    forall id :: id in ids ==> id != "" && Trimmed(id) && ',' !in id
  }

  lemma {:induction false} DedupSound(ids: seq<string>)
    ensures Distinct(Dedup(ids)) && SetOf(Dedup(ids)) == SetOf(ids)
    ensures CleanIds(ids) ==> CleanIds(Dedup(ids))
  {
    if ids != [] {
      var front, last := ids[..|ids| - 1], ids[|ids| - 1];
      DedupSound(front);
      assert ids == front + [last];
      assert forall id :: id in SetOf(Dedup(front)) <==> id in SetOf(front);
      assert SetOf(ids) == SetOf(front) + {last};
    }
  }

  // Entries reads part by part: the trimmed text of a part, unless that is blank.
  lemma EntriesOfOne(part: string)
    ensures Entries([part]) == if TrimSpace(part) == "" then [] else [TrimSpace(part)]
  {
    assert [part][..0] == [];
  }

  lemma {:induction false} EntriesByPart(front: seq<string>, back: seq<string>)
    ensures Entries(front + back) == Entries(front) + Entries(back)
  {
    if back != [] {
      EntriesByPart(front, back[..|back| - 1]);
      hide TrimSpace;
      assert (front + back)[..|front + back| - 1] == front + back[..|back| - 1];
    } else {
      assert front + back == front;
    }
  }

  // Of two entries that are kept, the one kept first also occurs first.
  lemma {:induction false} DedupOrder(ids: seq<string>, k: nat, l: nat)
    requires k < l < |Dedup(ids)|
    ensures exists i: nat :: i < |ids| && ids[i] == Dedup(ids)[k] && Dedup(ids)[l] !in ids[..i + 1]
  {
    var n := |ids| - 1;
    var front := Dedup(ids[..n]);
    if l < |front| {
      DedupOrder(ids[..n], k, l);
      var i: nat :| i < n && ids[..n][i] == front[k] && front[l] !in ids[..n][..i + 1];
      assert ids[..n][..i + 1] == ids[..i + 1];
    } else {
      DedupSound(ids[..n]);
      assert front[k] in SetOf(front) && front[k] in ids[..n];
      var i: nat :| i < n && ids[..n][i] == front[k];
      assert ids[n] !in SetOf(ids[..n]);
      assert forall c :: c in ids[..i + 1] ==> c in ids[..n];
    }
  }

  lemma {:induction false} DedupFixed(ids: seq<string>)
    requires Distinct(ids)
    ensures Dedup(ids) == ids
  {
    if ids != [] { DedupFixed(ids[..|ids| - 1]); }
  }

  lemma {:induction false} EntriesClean(parts: seq<string>)
    requires forall p :: p in parts ==> ',' !in p
    ensures CleanIds(Entries(parts))
  {
    if parts != [] {
      EntriesClean(parts[..|parts| - 1]);
      TrimSpaceTrims(parts[|parts| - 1]);
    }
  }

  lemma LastFixed(ids: seq<string>)
    requires ids != [] && CleanIds(ids)
    ensures CleanIds(ids[..|ids| - 1]) && ids[|ids| - 1] != "" && TrimSpace(ids[|ids| - 1]) == ids[|ids| - 1]
  {
    assert ids[|ids| - 1] in ids;
    TrimSpaceTrims(ids[|ids| - 1]);
    hide TrimSpace, Trimmed;
    assert forall id :: id in ids[..|ids| - 1] ==> id in ids;
  }

  lemma {:induction false} EntriesFixed(ids: seq<string>)
    requires CleanIds(ids)
    ensures Entries(ids) == ids
  {
    if ids != [] {
      LastFixed(ids);
      hide *;
      EntriesFixed(ids[..|ids| - 1]);
      EntriesStep(ids, |ids| - 1);
      assert ids[..|ids|] == ids && ids == ids[..|ids| - 1] + [ids[|ids| - 1]];
    } else {
      assert Entries(ids) == [];
    }
  }

  // Reading a normalised list back gives exactly the distinct entries of the original, in order.
  lemma NormalizedReadsBack(raw: string)
    ensures Listed(Normalized(raw)) == Dedup(Listed(raw))
    ensures Distinct(Listed(Normalized(raw)))
  {
    SplitParts(raw, ',');
    EntriesClean(Split(raw, ','));
    DedupSound(Listed(raw));
    var ids := Dedup(Listed(raw));
    if ids == [] {
      assert Split("", ',') == [""];
      assert Entries([""]) == [] by { assert [""][..0] == []; }
    } else {
      SplitJoin(ids, ',');
      EntriesFixed(ids);
    }
  }

  // splitIDList sees the same set before and after normalisation, and normalising twice changes nothing.
  lemma NormalizationKeepsMeaning(raw: string)
    ensures SetOf(Listed(Normalized(raw))) == SetOf(Listed(raw))
    ensures Normalized(Normalized(raw)) == Normalized(raw)
  {
    NormalizedReadsBack(raw);
    DedupSound(Listed(raw));
    DedupFixed(Dedup(Listed(raw)));
  }

  // Positions of the targets that are not paused, in order.
  ghost function Kept(targets: seq<Target>, paused: set<string>): seq<nat> {
    if targets == [] then []
    else
      var n := |targets| - 1;
      Kept(targets[..n], paused) + if targets[n].id in paused then [] else [n]
  }

  // They are exactly those positions, each once.
  lemma {:induction false} KeptPositions(targets: seq<Target>, paused: set<string>)
    ensures forall k :: 0 <= k < |Kept(targets, paused)| ==>
              Kept(targets, paused)[k] < |targets| && targets[Kept(targets, paused)[k]].id !in paused
    ensures forall k, l :: 0 <= k < l < |Kept(targets, paused)| ==> Kept(targets, paused)[k] < Kept(targets, paused)[l]
    ensures forall i :: 0 <= i < |targets| && targets[i].id !in paused ==> i in Kept(targets, paused)
  {
    if targets != [] {
      var n := |targets| - 1;
      KeptPositions(targets[..n], paused);
      var front := Kept(targets[..n], paused);
      forall i | 0 <= i < |targets| && targets[i].id !in paused ensures i in Kept(targets, paused) {
        if i < n {
          assert targets[..n][i].id !in paused;
          assert i in front;
        }
      }
    }
  }

  // The synced targets are exactly those not paused, each at most once per row and in the order of the
  // target list, with route tracing off where either side disabled it.
  lemma {:induction false} ConfigsFilter(targets: seq<Target>, disabled: set<string>, paused: set<string>)
    ensures var kept := Kept(targets, paused); var configs := ConfigsOf(targets, disabled, paused);
            |configs| == |kept| && forall k :: 0 <= k < |kept| ==>
              && kept[k] < |targets| && targets[kept[k]].id !in paused
              && configs[k].id == targets[kept[k]].id && configs[k].host == targets[kept[k]].host
              && (configs[k].disableRoute <==> targets[kept[k]].disableRoute || targets[kept[k]].id in disabled)
  {
    KeptPositions(targets, paused);
    if targets != [] {
      ConfigsFilter(targets[..|targets| - 1], disabled, paused);
      KeptPositions(targets[..|targets| - 1], paused);
    }
  }

  // A probe is synced the same targets whether its override lists were normalised or not.
  lemma NormalizationKeepsConfigs(targets: seq<Target>, disabledRoute: string, paused: string)
    ensures ConfigsOf(targets, SetOf(Listed(Normalized(disabledRoute))), SetOf(Listed(Normalized(paused)))) ==
            ConfigsOf(targets, SetOf(Listed(disabledRoute)), SetOf(Listed(paused)))
  {
    NormalizationKeepsMeaning(disabledRoute);
    NormalizationKeepsMeaning(paused);
  }
}
