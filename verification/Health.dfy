/** Channels and models that stop and recover by themselves, and the markers that tell an automatic
    stop from an administrator's (internal/service/modelroute.go, internal/gateway/breaker.go,
    internal/gateway/prober.go, internal/api/platform/handler.go). */
module Health {
  import opened Chunks
  import opened Words

  /** `autoAt` is set when the channel failed, `nokeyAt` when its vendor ran out of keys; 0 is unset. */
  datatype Channel = Channel(vendor: nat, enabled: bool, autoAt: nat, nokeyAt: nat, routable: bool,
                             serves: set<string>)

  datatype Model = Model(enabled: bool, autoAt: nat)

  datatype VendorKey = VendorKey(vendor: nat, enabled: bool)

  datatype Net = Net(channels: map<nat, Channel>, models: map<string, Model>, vendors: map<nat, bool>,
                     keys: map<nat, VendorKey>)

  predicate HasKey(n: Net, vendor: nat) {
    exists k :: k in n.keys && n.keys[k].vendor == vendor && n.keys[k].enabled
  }

  predicate UsableKey(n: Net, vendor: nat) {
    vendor in n.vendors && n.vendors[vendor] && HasKey(n, vendor)
  }

  predicate Live(n: Net, name: string) {
    exists c :: c in n.channels && n.channels[c].enabled && n.channels[c].routable && name in n.channels[c].serves
                && UsableKey(n, n.channels[c].vendor)
  }

  // ---- The statements ----

  function StopNoKey(n: Net, ids: set<nat>, now: nat): Net {
    n.(channels := map c | c in n.channels ::
      if c in ids && n.channels[c].enabled then n.channels[c].(enabled := false, nokeyAt := now) else n.channels[c])
  }

  function StartKeyed(n: Net, ids: set<nat>): Net {
    n.(channels := map c | c in n.channels ::
      if c in ids && !n.channels[c].enabled && n.channels[c].nokeyAt > 0
      then n.channels[c].(enabled := true, nokeyAt := 0) else n.channels[c])
  }

  function NoKeyIds(n: Net): set<nat> {
    set c | c in n.channels && n.channels[c].enabled && !UsableKey(n, n.channels[c].vendor)
  }

  function KeyedIds(n: Net): set<nat> {
    set c | c in n.channels && !n.channels[c].enabled && n.channels[c].nokeyAt > 0
            && UsableKey(n, n.channels[c].vendor)
  }

  /** One transaction. */
  function SyncModels(n: Net, now: nat): Net {
    n.(models := map m | m in n.models ::
      if n.models[m].enabled && !Live(n, m) then Model(false, now)
      else if !n.models[m].enabled && n.models[m].autoAt > 0 && Live(n, m) then Model(true, 0)
      else n.models[m])
  }

  /** Enabled models that are dead, and models stopped automatically that are live. */
  function DeadModels(n: Net): set<string> {
    set m | m in n.models && n.models[m].enabled && !Live(n, m)
  }

  function LiveModels(n: Net): set<string> {
    set m | m in n.models && !n.models[m].enabled && n.models[m].autoAt > 0 && Live(n, m)
  }

  function StopModels(n: Net, names: set<string>, now: nat): Net {
    n.(models := map m | m in n.models ::
      if m in names && n.models[m].enabled then Model(false, now) else n.models[m])
  }

  function StartModels(n: Net, names: set<string>): Net {
    n.(models := map m | m in n.models ::
      if m in names && !n.models[m].enabled then Model(true, 0) else n.models[m])
  }

  function SyncChannels(n: Net, now: nat): Net {
    var n1 := StopNoKey(n, NoKeyIds(n), now);
    StartKeyed(n1, KeyedIds(n1))
  }

  function Sync(n: Net, now: nat): Net {
    SyncModels(SyncChannels(n, now), now)
  }

  /** The tables, with the queries and updates of one synchronization. */
  class Registry {
    var channels: map<nat, Channel>
    var models: map<string, Model>
    var vendors: map<nat, bool>
    var keys: map<nat, VendorKey>

    constructor (n: Net)
      ensures View() == n
    {
      channels, models, vendors, keys := n.channels, n.models, n.vendors, n.keys;
    }

    function View(): Net
      reads this
    {
      Net(channels, models, vendors, keys)
    }

    method DisableNoKeyChannels(now: nat) returns (stopped: set<nat>)
      modifies this`channels
      ensures stopped == NoKeyIds(old(View())) && View() == StopNoKey(old(View()), stopped, now)
    {
      stopped := NoKeyIds(View());
      channels := map c | c in channels ::
        if c in stopped && channels[c].enabled then channels[c].(enabled := false, nokeyAt := now) else channels[c];
    }

    method RecoverKeyedChannels() returns (started: set<nat>)
      modifies this`channels
      ensures started == KeyedIds(old(View())) && View() == StartKeyed(old(View()), started)
    {
      started := KeyedIds(View());
      channels := map c | c in channels ::
        if c in started && !channels[c].enabled && channels[c].nokeyAt > 0
        then channels[c].(enabled := true, nokeyAt := 0) else channels[c];
    }

    /** Two queries and two updates; recovery is looked for after the stops have been written. */
    method SyncModelRoutableStatus(now: nat) returns (stopped: set<string>, started: set<string>)
      modifies this`models
      ensures View() == SyncModels(old(View()), now)
      ensures stopped == DeadModels(old(View())) && started == LiveModels(old(View()))
    {
      hide Live, DeadModels, LiveModels, SyncModels;
      ghost var n := View();
      stopped := DeadModels(View());
      models := map m | m in models :: if m in stopped && models[m].enabled then Model(false, now) else models[m];
      assert View() == StopModels(n, stopped, now);
      started := LiveModels(View());
      models := map m | m in models :: if m in started && !models[m].enabled then Model(true, 0) else models[m];
      TwoUpdates(n, now);
    }

    /** After it nothing enabled is dead and nothing stopped automatically is alive. */
    method SyncModelsAndNotify(now: nat)
      modifies this`channels, this`models
      ensures View() == Sync(old(View()), now) && Aligned(View())
    {
      ghost var n := View();
      var stopped := DisableNoKeyChannels(now);
      var started := RecoverKeyedChannels();
      var modelsStopped, modelsStarted := SyncModelRoutableStatus(now);
      SyncAligned(n, now);
    }
  }

  // ---- One synchronization ----

  ghost predicate Aligned(n: Net) {
    && (forall c :: c in n.channels && n.channels[c].enabled ==> UsableKey(n, n.channels[c].vendor))
    && (forall c :: c in n.channels && !n.channels[c].enabled && n.channels[c].nokeyAt > 0 ==>
          !UsableKey(n, n.channels[c].vendor))
    && (forall m :: m in n.models && n.models[m].enabled ==> Live(n, m))
    && (forall m :: m in n.models && !n.models[m].enabled && n.models[m].autoAt > 0 ==> !Live(n, m))
  }

  lemma SameKeys(n: Net, n': Net)
    requires n'.vendors == n.vendors && n'.keys == n.keys
    ensures forall v :: UsableKey(n', v) == UsableKey(n, v)
  {
  }

  lemma ChannelsAligned(n: Net, now: nat)
    ensures var n' := SyncChannels(n, now);
            && n' == n.(channels := n'.channels)
            && (forall c :: c in n'.channels && n'.channels[c].enabled ==> UsableKey(n', n'.channels[c].vendor))
            && (forall c :: c in n'.channels && !n'.channels[c].enabled && n'.channels[c].nokeyAt > 0 ==>
                  !UsableKey(n', n'.channels[c].vendor))
  {
    hide UsableKey;
    var n1 := StopNoKey(n, NoKeyIds(n), now);
    SameKeys(n, n1);
    SameKeys(n, SyncChannels(n, now));
  }

  /** Being live does not depend on the models. */
  lemma LiveSame(n: Net, n': Net)
    requires n'.channels == n.channels && n'.vendors == n.vendors && n'.keys == n.keys
    ensures forall m :: Live(n', m) == Live(n, m)
  {
    hide UsableKey;
    SameKeys(n, n');
  }

  lemma SameLiveModels(n: Net, now: nat)
    ensures LiveModels(StopModels(n, DeadModels(n), now)) == LiveModels(n)
  {
    hide Live;
    var n1 := StopModels(n, DeadModels(n), now);
    LiveSame(n, n1);
    forall m | m in n.models ensures m in LiveModels(n1) <==> m in LiveModels(n) {
      assert m in n1.models;
    }
  }

  /** The transaction's two updates, one after the other. */
  lemma TwoUpdates(n: Net, now: nat)
    ensures var n1 := StopModels(n, DeadModels(n), now);
            && LiveModels(n1) == LiveModels(n)
            && StartModels(n1, LiveModels(n1)) == SyncModels(n, now)
  {
    hide Live;
    SameLiveModels(n, now);
    assert StartModels(StopModels(n, DeadModels(n), now), LiveModels(n)).models == SyncModels(n, now).models;
  }

  lemma SyncAligned(n: Net, now: nat)
    ensures Aligned(Sync(n, now))
  {
    hide SyncChannels, Live, UsableKey;
    var n1 := SyncChannels(n, now);
    ChannelsAligned(n, now);
    SameKeys(n1, Sync(n, now));
    LiveSame(n1, Sync(n, now));
  }

  /** One synchronization is enough: another one, at any later time, changes nothing. */
  lemma SyncIsFixpoint(n: Net, now: nat, later: nat)
    ensures Sync(Sync(n, now), later) == Sync(n, now)
  {
    SyncAligned(n, now);
    AlignedStays(Sync(n, now), later);
  }

  lemma AlignedStays(n: Net, now: nat)
    requires Aligned(n)
    ensures Sync(n, now) == n
  {
    hide Live, UsableKey;
    assert NoKeyIds(n) == {};
    var n1 := StopNoKey(n, NoKeyIds(n), now);
    assert n1.channels == n.channels;
    assert KeyedIds(n1) == {};
    assert StartKeyed(n1, {}).channels == n.channels;
    assert SyncModels(n, now).models == n.models;
  }

  // ---- All runs ----

  /** Each step is one statement or one transaction. The two sweeps write to identifiers read earlier,
      which may be out of date: any set is allowed. Turning a channel on or off (AdminChannel) clears
      its markers; saving its form (EditChannel) may write the status as well and leaves them, and so
      does saving a model's (EditModel). Channels are saved only for a vendor with an enabled key, and
      with an address, which the form demands. */
  datatype Step =
    | SweepNoKey(ids: set<nat>, now: nat)
    | SweepKeyed(ids: set<nat>)
    | SyncModelStatus(now: nat)
    | Trip(channel: nat, now: nat)
    | ProbeOk(channel: nat)
    | DropKey(key: nat)
    | AdminChannel(channel: nat, enable: bool)
    | AdminKey(key: nat, enable: bool)
    | AddKey(key: nat, vendor: nat)
    | SetVendor(vendor: nat, enable: bool)
    | NewChannel(channel: nat, vendor: nat, enable: bool, serves: set<string>)
    | EditChannel(channel: nat, vendor: nat, serves: set<string>, status: Option<bool>)
    | EditModel(model: string, enable: bool)

  /** Models named by a channel for the first time come into being enabled. */
  function WithModels(models: map<string, Model>, serves: set<string>): map<string, Model> {
    map m | m in models.Keys + serves :: if m in models then models[m] else Model(true, 0)
  }

  function Next(n: Net, step: Step): Net {
    match step
    case SweepNoKey(ids, now) => StopNoKey(n, ids, now)
    case SweepKeyed(ids) => StartKeyed(n, ids)
    case SyncModelStatus(now) => SyncModels(n, now)
    case Trip(c, now) =>
      if c in n.channels && n.channels[c].enabled
      then n.(channels := n.channels[c := n.channels[c].(enabled := false, autoAt := now)]) else n
    case ProbeOk(c) =>
      if c in n.channels && !n.channels[c].enabled && n.channels[c].autoAt > 0
      then n.(channels := n.channels[c := n.channels[c].(enabled := true, autoAt := 0)]) else n
    case DropKey(k) =>
      if k in n.keys then n.(keys := n.keys[k := n.keys[k].(enabled := false)]) else n
    case AdminChannel(c, enable) =>
      if c !in n.channels || (enable && !HasKey(n, n.channels[c].vendor)) then n
      else n.(channels := n.channels[c := n.channels[c].(enabled := enable, autoAt := 0, nokeyAt := 0)])
    case AdminKey(k, enable) =>
      if k in n.keys then n.(keys := n.keys[k := n.keys[k].(enabled := enable)]) else n
    case AddKey(k, vendor) =>
      if k in n.keys then n else n.(keys := n.keys[k := VendorKey(vendor, true)])
    case SetVendor(vendor, enable) => n.(vendors := n.vendors[vendor := enable])
    case NewChannel(c, vendor, enable, serves) =>
      if c in n.channels || !HasKey(n, vendor) then n
      else n.(channels := n.channels[c := Channel(vendor, enable, 0, 0, true, serves)],
              models := WithModels(n.models, serves))
    case EditChannel(c, vendor, serves, status) =>
      if c !in n.channels || !HasKey(n, vendor) then n
      else
        var enabled := if status.Some? then status.value else n.channels[c].enabled;
        var saved := n.channels[c].(vendor := vendor, serves := serves, enabled := enabled, routable := true);
        n.(channels := n.channels[c := saved], models := WithModels(n.models, serves))
    case EditModel(m, enable) =>
      if m in n.models then n.(models := n.models[m := n.models[m].(enabled := enable)]) else n
  }

  function Run(n: Net, steps: seq<Step>): Net
    decreases |steps|
  {
    if steps == [] then n else Run(Next(n, steps[0]), steps[1..])
  }

  /** Enabled channels and models carry no marker, and a channel never carries two. */
  predicate Marked(n: Net) {
    && (forall c :: c in n.channels ==>
          (n.channels[c].enabled ==> n.channels[c].autoAt == 0 && n.channels[c].nokeyAt == 0)
          && (n.channels[c].autoAt == 0 || n.channels[c].nokeyAt == 0))
    && (forall m :: m in n.models && n.models[m].enabled ==> n.models[m].autoAt == 0)
  }

  predicate Unmarked(c: Channel) { c.autoAt == 0 && c.nokeyAt == 0 }

  /** The step does not enable a row by an edit while a marker stands on it. */
  predicate Tidy(n: Net, step: Step) {
    match step
    case EditChannel(c, vendor, _, status) =>
      c in n.channels && HasKey(n, vendor) && status == Some(true) ==> Unmarked(n.channels[c])
    case EditModel(m, enable) => m in n.models && enable ==> n.models[m].autoAt == 0
    case _ => true
  }

  predicate TidyRun(n: Net, steps: seq<Step>)
    decreases |steps|
  {
    steps == [] || (Tidy(n, steps[0]) && TidyRun(Next(n, steps[0]), steps[1..]))
  }

  lemma SweepMarks(n: Net, ids: set<nat>, now: nat)
    requires Marked(n)
    ensures Marked(StopNoKey(n, ids, now))
  {
    var n' := StopNoKey(n, ids, now);
    assert forall c :: c in n'.channels ==>
      n'.channels[c] == n.channels[c] || n'.channels[c] == n.channels[c].(enabled := false, nokeyAt := now);
  }

  lemma EditMarks(n: Net, step: Step)
    requires Marked(n) && step.EditChannel?
    ensures Marked(Next(n, step)) <==> Tidy(n, step)
  {
    hide HasKey;
    if step.channel in n.channels && HasKey(n, step.vendor) { assert step.channel in Next(n, step).channels; }
  }

  lemma StepMarks(n: Net, step: Step)
    requires Marked(n)
    ensures Marked(Next(n, step)) <==> Tidy(n, step)
  {
    match step {
      case SweepNoKey(ids, now) => SweepMarks(n, ids, now);
      case EditChannel(_, _, _, _) => EditMarks(n, step);
      case EditModel(m, _) => if m in n.models { assert m in Next(n, step).models; }
      case _ => OtherMarks(n, step);
    }
  }

  lemma OtherMarks(n: Net, step: Step)
    requires Marked(n) && !step.SweepNoKey? && !step.EditChannel? && !step.EditModel?
    ensures Marked(Next(n, step))
  {
    hide Live, HasKey, UsableKey, StopNoKey;
  }

  /** The markers mean what they say at every moment of a run exactly when they did at its start and
      no edit along it enables a marked row. */
  lemma {:induction false} MarksKept(n: Net, steps: seq<Step>)
    ensures (forall i :: 0 <= i <= |steps| ==> Marked(Run(n, steps[..i]))) <==> Marked(n) && TidyRun(n, steps)
    decreases |steps|
  {
    hide Marked, Next, Tidy;
    assert Run(n, steps[..0]) == n;
    if steps != [] && Marked(n) {
      var n1, rest := Next(n, steps[0]), steps[1..];
      StepMarks(n, steps[0]);
      MarksKept(n1, rest);
      forall i | 0 <= i <= |rest| ensures Run(n, steps[..i + 1]) == Run(n1, rest[..i]) {
        assert steps[..i + 1][1..] == rest[..i];
      }
      assert forall i :: 0 < i <= |steps| ==> Run(n, steps[..i]) == Run(n1, rest[..i - 1]);
      assert Run(n1, rest[..0]) == n1;
    }
  }

  // ---- An administrator's stop ----

  predicate Stopped(n: Net, c: nat) { c in n.channels && !n.channels[c].enabled }

  predicate ModelStopped(n: Net, m: string) { m in n.models && !n.models[m].enabled }

  predicate StoppedByHand(n: Net, c: nat) { Stopped(n, c) && Unmarked(n.channels[c]) }

  predicate ModelStoppedByHand(n: Net, m: string) { ModelStopped(n, m) && n.models[m].autoAt == 0 }

  /** No administrator starts the channel. */
  predicate NotStarted(steps: seq<Step>, c: nat) {
    AdminChannel(c, true) !in steps
    && forall i :: 0 <= i < |steps| && steps[i].EditChannel? && steps[i].channel == c ==> steps[i].status != Some(true)
  }

  /** The sweeps write what they would select now, and probes find a key. */
  predicate Fresh(n: Net, steps: seq<Step>)
    decreases |steps|
  {
    steps == [] ||
    (&& (steps[0].SweepNoKey? ==> steps[0].ids == NoKeyIds(n))
     && (steps[0].SweepKeyed? ==> steps[0].ids == KeyedIds(n))
     && (steps[0].ProbeOk? && steps[0].channel in n.channels ==> HasKey(n, n.channels[steps[0].channel].vendor))
     && Fresh(Next(n, steps[0]), steps[1..]))
  }

  /** Whatever happens, the channel stays stopped until an administrator starts it. */
  ghost predicate StaysStopped(n: Net, c: nat) {
    forall steps :: NotStarted(steps, c) ==> Stopped(Run(n, steps), c)
  }

  /** The same if no sweep is out of date. */
  ghost predicate StaysStoppedFresh(n: Net, c: nat) {
    forall steps :: NotStarted(steps, c) && Fresh(n, steps) ==> Stopped(Run(n, steps), c)
  }

  ghost predicate ModelStaysStopped(n: Net, m: string) {
    forall steps :: EditModel(m, true) !in steps ==> ModelStopped(Run(n, steps), m)
  }

  ghost predicate ModelStaysStoppedFresh(n: Net, m: string) {
    forall steps :: EditModel(m, true) !in steps && Fresh(n, steps) ==> ModelStopped(Run(n, steps), m)
  }

  lemma StepStopHolds(n: Net, step: Step, c: nat, m: string)
    ensures StoppedByHand(n, c) && NotStarted([step], c) ==> StoppedByHand(Next(n, step), c)
    ensures ModelStoppedByHand(n, m) && step != EditModel(m, true) ==> ModelStoppedByHand(Next(n, step), m)
  {
    hide Live, HasKey, UsableKey;
    if step.EditChannel? { assert [step][0] == step; }
    if step == AdminChannel(c, true) { assert step in [step]; }
  }

  /** A stop that leaves no marker holds in every interleaving of sweeps, breaker, probes, key changes
      and edits until an administrator starts the channel, or the model. */
  lemma {:induction false} ManualStopHolds(n: Net, steps: seq<Step>, c: nat, m: string)
    ensures StoppedByHand(n, c) && NotStarted(steps, c) ==> StoppedByHand(Run(n, steps), c)
    ensures ModelStoppedByHand(n, m) && EditModel(m, true) !in steps ==> ModelStoppedByHand(Run(n, steps), m)
    decreases |steps|
  {
    hide Next, StoppedByHand, ModelStoppedByHand;
    if steps != [] {
      var n1, rest := Next(n, steps[0]), steps[1..];
      StepStopHolds(n, steps[0], c, m);
      ManualStopHolds(n1, rest, c, m);
      if NotStarted(steps, c) { assert NotStarted([steps[0]], c) && NotStarted(rest, c); }
    }
  }

  /** What an administrator can do to bring a marked channel back without starting it. */
  function Comeback(n: Net, c: nat): seq<Step>
    requires c in n.channels
  {
    if n.channels[c].autoAt > 0 then [ProbeOk(c)]
    else
      var n1 := Next(n, SetVendor(n.channels[c].vendor, true));
      [SetVendor(n.channels[c].vendor, true), SweepKeyed(KeyedIds(n1))]
  }

  lemma ComesBack(n: Net, c: nat)
    requires Stopped(n, c) && !Unmarked(n.channels[c]) && HasKey(n, n.channels[c].vendor)
    ensures NotStarted(Comeback(n, c), c) && Fresh(n, Comeback(n, c))
    ensures !Stopped(Run(n, Comeback(n, c)), c)
  {
    var steps := Comeback(n, c);
    if n.channels[c].autoAt > 0 {
      assert Run(n, steps) == Run(Next(n, ProbeOk(c)), []);
    } else {
      var v := n.channels[c].vendor;
      var n1 := Next(n, SetVendor(v, true));
      assert HasKey(n1, v);
      assert c in KeyedIds(n1);
      var n2 := Next(n1, SweepKeyed(KeyedIds(n1)));
      assert steps[1..] == [SweepKeyed(KeyedIds(n1))];
      assert Run(n, steps) == Run(n1, steps[1..]) == Run(n2, []);
      assert Fresh(n2, []) && Fresh(n1, steps[1..]);
    }
  }

  /** Stopping a channel by saving its form leaves its markers alone: it then stays stopped through
      every run without an administrator's start exactly when it carried none, and sweeps that are
      up to date change nothing about that. */
  lemma EditedStopHoldsIff(n: Net, c: nat, vendor: nat, serves: set<string>)
    requires c in n.channels && HasKey(n, vendor)
    ensures var edited := Next(n, EditChannel(c, vendor, serves, Some(false)));
            && (StaysStopped(edited, c) <==> Unmarked(n.channels[c]))
            && (StaysStoppedFresh(edited, c) <==> Unmarked(n.channels[c]))
  {
    var edited := Next(n, EditChannel(c, vendor, serves, Some(false)));
    if Unmarked(n.channels[c]) {
      forall steps | NotStarted(steps, c) ensures Stopped(Run(edited, steps), c) {
        ManualStopHolds(edited, steps, c, "");
      }
    } else {
      assert HasKey(edited, vendor);
      ComesBack(edited, c);
    }
  }

  /** A key and a channel that have not been used, for a model that nothing else can serve. */
  function Rescue(k: nat, c: nat, m: string): seq<Step> {
    [SetVendor(1, true), AddKey(k, 1), NewChannel(c, 1, true, {m}), SyncModelStatus(0)]
  }

  /** The three steps before the synchronization. */
  function Rescued(n: Net, k: nat, c: nat, m: string): Net {
    Next(Next(Next(n, SetVendor(1, true)), AddKey(k, 1)), NewChannel(c, 1, true, {m}))
  }

  lemma RescuedIsLive(n: Net, m: string, k: nat, c: nat)
    requires m in n.models && k !in n.keys && c !in n.channels
    ensures var n3 := Rescued(n, k, c, m); m in n3.models && n3.models[m] == n.models[m] && Live(n3, m)
  {
    var n2 := Next(Next(n, SetVendor(1, true)), AddKey(k, 1));
    assert k in n2.keys && HasKey(n2, 1);
    var n3 := Rescued(n, k, c, m);
    assert k in n3.keys && UsableKey(n3, 1);
    assert c in n3.channels;
  }

  lemma SyncRevives(n: Net, m: string, now: nat)
    requires m in n.models && n.models[m].autoAt > 0 && Live(n, m)
    ensures !ModelStopped(SyncModels(n, now), m)
  {
    hide Live;
  }

  lemma ModelComesBack(n: Net, m: string, k: nat, c: nat)
    requires ModelStopped(n, m) && n.models[m].autoAt > 0 && k !in n.keys && c !in n.channels
    ensures EditModel(m, true) !in Rescue(k, c, m) && Fresh(n, Rescue(k, c, m))
    ensures !ModelStopped(Run(n, Rescue(k, c, m)), m)
  {
    RescuedIsLive(n, m, k, c);
    var n3 := Rescued(n, k, c, m);
    SyncRevives(n3, m, 0);
    var s := Rescue(k, c, m);
    assert Next(n3, s[3]) == SyncModels(n3, 0) && Next(Next(Next(n, s[0]), s[1]), s[2]) == n3;
    hide Next, Rescued, SyncModels;
    var n1, n2 := Next(n, s[0]), Next(Next(n, s[0]), s[1]);
    assert s[1..] == [s[1], s[2], s[3]] && [s[1], s[2], s[3]][1..] == [s[2], s[3]] && [s[2], s[3]][1..] == [s[3]];
    assert Run(n, s) == Run(n1, s[1..]) == Run(n2, [s[2], s[3]]) == Run(n3, [s[3]]) == Run(Next(n3, s[3]), []);
    assert Fresh(Next(n3, s[3]), []) && Fresh(n3, [s[3]]) && Fresh(n2, [s[2], s[3]]) && Fresh(n1, s[1..]);
  }

  /** The same of a model that is stopped by saving its form. */
  lemma EditedModelStopHoldsIff(n: Net, m: string)
    requires m in n.models
    ensures var edited := Next(n, EditModel(m, false));
            && (ModelStaysStopped(edited, m) <==> n.models[m].autoAt == 0)
            && (ModelStaysStoppedFresh(edited, m) <==> n.models[m].autoAt == 0)
  {
    var edited := Next(n, EditModel(m, false));
    if n.models[m].autoAt == 0 {
      forall steps | EditModel(m, true) !in steps ensures ModelStopped(Run(edited, steps), m) {
        ManualStopHolds(edited, steps, 0, m);
      }
    } else {
      var k := Beyond(edited.keys.Keys, (x: nat) => x as int);
      var c := Beyond(edited.channels.Keys, (x: nat) => x as int);
      ModelComesBack(edited, m, k, c);
    }
  }
}
