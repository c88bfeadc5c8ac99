/** A model that counts as live can be routed (internal/service/modelroute.go against
    internal/gateway/selector.go). */
module Routability {
  import opened Health
  import R = Relay
  import S = Selector
  import C = Candidates

  predicate Serves(n: Net, name: string, c: nat) {
    c in n.channels && n.channels[c].enabled && name in n.channels[c].serves && n.channels[c].vendor in n.vendors
  }

  predicate RowOf(n: Net, name: string, r: S.Row, c: nat) {
    && Serves(n, name, c)
    && r.channel == c && r.vendor == n.channels[c].vendor && r.routable == n.channels[c].routable
  }

  predicate KeyOf(n: Net, x: S.Key, k: nat) {
    k in n.keys && n.keys[k].enabled && x.id == k && x.vendor == n.keys[k].vendor
  }

  /** The rows and keys the selection reads for a model: enabled channels that serve it, joined with
      their vendors, and enabled keys; whether the vendor is enabled is not asked. */
  ghost predicate Read(n: Net, name: string, rows: seq<S.Row>, keys: seq<S.Key>) {
    && (forall c :: Serves(n, name, c) ==> exists r :: r in rows && RowOf(n, name, r, c))
    && (forall r :: r in rows ==> 0 <= r.channel && RowOf(n, name, r, r.channel))
    && (forall k :: k in n.keys && n.keys[k].enabled ==> exists x :: x in keys && KeyOf(n, x, k))
    && (forall x :: x in keys ==> KeyOf(n, x, x.id))
  }

  lemma RowFor(n: Net, name: string, rows: seq<S.Row>, keys: seq<S.Key>, c: nat) returns (r: S.Row)
    requires Read(n, name, rows, keys) && Serves(n, name, c)
    ensures r in rows && RowOf(n, name, r, c)
  {
    r :| r in rows && RowOf(n, name, r, c);
  }

  lemma KeyFor(n: Net, name: string, rows: seq<S.Row>, keys: seq<S.Key>, vendor: nat) returns (x: S.Key)
    requires Read(n, name, rows, keys) && HasKey(n, vendor)
    ensures x in keys && x.vendor == vendor
  {
    var k :| k in n.keys && n.keys[k].vendor == vendor && n.keys[k].enabled;
    x :| x in keys && KeyOf(n, x, k);
  }

  lemma ReadBack(n: Net, name: string, rows: seq<S.Row>, keys: seq<S.Key>, r: S.Row, x: S.Key)
    requires Read(n, name, rows, keys) && r in rows && x in keys && r.vendor == x.vendor
    ensures 0 <= r.channel && RowOf(n, name, r, r.channel) && HasKey(n, r.vendor)
  {
    assert KeyOf(n, x, x.id);
  }

  lemma PoolHas(keys: seq<S.Key>, vendor: nat)
    ensures C.Pool(keys, vendor) != [] <==> exists x :: x in keys && x.vendor == vendor
  {
    if x :| x in keys && x.vendor == vendor {
      C.PoolCount(keys, vendor, x);
      assert x in multiset(keys);
      assert x in multiset(C.Pool(keys, vendor));
    }
    if C.Pool(keys, vendor) != [] {
      var x := C.Pool(keys, vendor)[0];
      assert x in multiset(C.Pool(keys, vendor));
      C.PoolCount(keys, vendor, x);
      assert x in multiset(keys);
    }
  }

  lemma ValidHas(rows: seq<S.Row>, r: S.Row)
    ensures r in C.Valid(rows) <==> r in rows && r.routable
  {
    C.ValidCount(rows, r);
    assert r in C.Valid(rows) <==> r in multiset(C.Valid(rows));
    assert r in rows <==> r in multiset(rows);
  }

  lemma KeyedHas(rows: seq<S.Row>, keys: seq<S.Key>, r: S.Row, x: S.Key)
    requires r in rows && r.routable && x in keys && x.vendor == r.vendor
    ensures r in C.Valid(rows) && r.vendor in C.Keyed(C.Valid(rows), keys)
  {
    ValidHas(rows, r);
    PoolHas(keys, r.vendor);
  }

  lemma KeyedFrom(rows: seq<S.Row>, keys: seq<S.Key>) returns (r: S.Row, x: S.Key)
    requires C.Keyed(C.Valid(rows), keys) != {}
    ensures r in rows && r.routable && x in keys && x.vendor == r.vendor
  {
    var v :| v in C.Keyed(C.Valid(rows), keys);
    r :| r in C.Valid(rows) && C.Pool(keys, r.vendor) != [] && r.vendor == v;
    ValidHas(rows, r);
    PoolHas(keys, r.vendor);
    x :| x in keys && x.vendor == r.vendor;
  }

  /** The channel can be chosen for the model: it has an address and its vendor has a key. */
  predicate Routes(n: Net, name: string, c: nat) {
    Serves(n, name, c) && n.channels[c].routable && HasKey(n, n.channels[c].vendor)
  }

  /** What the selection finds: a vendor with keys among its rows exactly when some channel can be
      chosen. */
  lemma SelectableExact(n: Net, name: string, rows: seq<S.Row>, keys: seq<S.Key>)
    requires Read(n, name, rows, keys)
    ensures C.Keyed(C.Valid(rows), keys) != {} <==> exists c :: Routes(n, name, c)
  {
    hide Read, C.Valid, C.Keyed, HasKey;
    if c :| Routes(n, name, c) {
      var r := RowFor(n, name, rows, keys, c);
      var x := KeyFor(n, name, rows, keys, r.vendor);
      KeyedHas(rows, keys, r, x);
    }
    if C.Keyed(C.Valid(rows), keys) != {} {
      var r, x := KeyedFrom(rows, keys);
      ReadBack(n, name, rows, keys, r, x);
      assert Routes(n, name, r.channel);
    }
  }

  lemma LiveRoutes(n: Net, name: string)
    ensures Live(n, name) <==> exists c :: Routes(n, name, c) && n.vendors[n.channels[c].vendor]
  {
    hide HasKey;
    if Live(n, name) {
      var c :| c in n.channels && n.channels[c].enabled && n.channels[c].routable && name in n.channels[c].serves
               && UsableKey(n, n.channels[c].vendor);
      assert Routes(n, name, c);
    }
  }

  /** A live model always has channels and a vendor with keys to choose from. */
  lemma LiveIsSelectable(n: Net, name: string, rows: seq<S.Row>, keys: seq<S.Key>)
    requires Read(n, name, rows, keys) && Live(n, name)
    ensures C.Valid(rows) != [] && C.Keyed(C.Valid(rows), keys) != {}
  {
    hide Read, C.Valid, Live, Routes;
    LiveRoutes(n, name);
    SelectableExact(n, name, rows, keys);
  }

  /** Being live and having something to choose from agree exactly when the model is live or none of
      the channels that could be chosen belongs to a disabled vendor. */
  lemma SelectableIffLive(n: Net, name: string, rows: seq<S.Row>, keys: seq<S.Key>)
    requires Read(n, name, rows, keys)
    ensures (C.Keyed(C.Valid(rows), keys) != {} <==> Live(n, name))
       <==> (Live(n, name) || !exists c :: Routes(n, name, c) && !n.vendors[n.channels[c].vendor])
  {
    hide Read, C.Valid, C.Keyed, Live;
    LiveRoutes(n, name);
    SelectableExact(n, name, rows, keys);
  }

  /** After a synchronization the two agree for every model, and nothing of a disabled vendor can be
      chosen. */
  lemma AlignedAgrees(n: Net, name: string, rows: seq<S.Row>, keys: seq<S.Key>)
    requires Aligned(n) && Read(n, name, rows, keys)
    ensures C.Keyed(C.Valid(rows), keys) != {} <==> Live(n, name)
    ensures forall c :: Routes(n, name, c) ==> n.vendors[n.channels[c].vendor]
  {
    hide Read, C.Valid, C.Keyed, Live, HasKey;
    SelectableIffLive(n, name, rows, keys);
  }

  // ---- A disabled vendor ----

  const BOTH := Net(map[1 := Channel(7, true, 0, 0, true, {"m"}), 2 := Channel(8, true, 0, 0, true, {"m"})],
                    map["m" := Model(true, 0)], map[7 := true, 8 := true],
                    map[3 := VendorKey(7, true), 4 := VendorKey(8, true)])

  const ROWS := [S.Row(1, 7, 1, 0, true), S.Row(2, 8, 1, 0, true)]

  const KEYS := [S.Key(3, 7, 1), S.Key(4, 8, 1)]

  lemma BothRead(n: Net)
    requires n == BOTH || n == Next(BOTH, SetVendor(7, false))
    ensures Read(n, "m", ROWS, KEYS)
  {
    assert ROWS[0] in ROWS && ROWS[1] in ROWS && KEYS[0] in KEYS && KEYS[1] in KEYS;
    assert forall r :: r in ROWS ==> r == ROWS[0] || r == ROWS[1];
    assert forall x :: x in KEYS ==> x == KEYS[0] || x == KEYS[1];
    assert RowOf(n, "m", ROWS[0], 1) && RowOf(n, "m", ROWS[1], 2);
    assert KeyOf(n, KEYS[0], 3) && KeyOf(n, KEYS[1], 4);
  }

  lemma BothAligned()
    ensures Aligned(BOTH) && Live(Next(BOTH, SetVendor(7, false)), "m")
  {
    assert BOTH.keys[3].vendor == 7 && BOTH.keys[4].vendor == 8;
    assert UsableKey(BOTH, 7) && UsableKey(BOTH, 8);
    assert 1 in BOTH.channels;
    var n := Next(BOTH, SetVendor(7, false));
    assert n.keys[4].vendor == 8 && UsableKey(n, 8) && 2 in n.channels;
  }

  lemma BothUnique()
    ensures C.Descending(ROWS) && C.Unique(ROWS, KEYS)
  {
    assert forall r :: r in ROWS ==> r == ROWS[0] || r == ROWS[1];
    assert forall x :: x in KEYS ==> x == KEYS[0] || x == KEYS[1];
    assert ROWS[0] != ROWS[1] && KEYS[0] != KEYS[1];
    assert multiset(ROWS) == multiset{ROWS[0], ROWS[1]} && multiset(KEYS) == multiset{KEYS[0], KEYS[1]};
  }

  lemma ExactlyHas(cands: seq<R.Candidate>, rows: seq<S.Row>, keys: seq<S.Key>, state: S.Key -> S.KeyState,
                   r: S.Row, k: S.Key)
    requires C.Exactly(cands, rows, keys, state) && r in rows && k in keys
    requires r.routable && k.vendor == r.vendor && state(k).Ready?
    ensures C.CandidateOf(r, k) in cands
  {
    assert C.CandidateOf(r, k) in multiset(cands);
  }

  /** Two vendors serve a model and everything is in order; one is disabled. Until the next
      synchronization a request for the model, which is still live, is given the disabled vendor's
      key as a candidate, whatever the draws. */
  lemma DisabledVendorStillSelected(cands: seq<R.Candidate>, state: S.Key -> S.KeyState)
    requires state(KEYS[0]).Ready? && C.Exactly(cands, ROWS, KEYS, state)
    ensures var n := Next(BOTH, SetVendor(7, false));
            && Aligned(BOTH) && Live(n, "m") && n.models["m"].enabled && !n.vendors[7]
            && Read(n, "m", ROWS, KEYS) && C.Descending(ROWS) && C.Unique(ROWS, KEYS)
            && R.Candidate(1, 7, 3, 0) in cands
  {
    hide Read, Aligned, Live, C.Descending, C.Unique, C.Exactly;
    BothRead(Next(BOTH, SetVendor(7, false)));
    BothAligned();
    BothUnique();
    assert ROWS[0] in ROWS && KEYS[0] in KEYS;
    ExactlyHas(cands, ROWS, KEYS, state, ROWS[0], KEYS[0]);
  }
}
