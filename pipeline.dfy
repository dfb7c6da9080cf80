/**
 * The synchroniser (pipelines/import_pipeline.py): `PipelineReport` and
 * `VehicleSynchronizer.run`, which reconciles the desired vehicles against the remote
 * lookup through a client whose every call either succeeds or raises. A raised call is
 * caught and becomes one error of the report; only a duplicate id escapes `run`.
 */
module Pipeline {
  import opened Wrappers
  import opened Models

  // ---------------------------------------------------------------- the client and the report

  /** A call on the Izzylease client. */
  datatype Call =
    | BuildLookup
    | CreateVehicle(vehicle: Vehicle)
    | UpdateVehicle(vehicle: Vehicle)
    | UpdatePrice(externalId: string, price: real, notifyDiscount: bool)
    | CloseVehicle(externalId: string)

  /**
   * What the synchroniser reads off a vehicle: `external_id`, `sales_price` and
   * `requires_price_discount_flag(current_price)`.
   */
  datatype VehicleView = VehicleView(
    externalId: Vehicle -> string,
    salesPrice: Vehicle -> Option<real>,
    requiresPriceDiscountFlag: (Vehicle, Option<real>) -> bool)

  /**
   * The client as an oracle: what `build_vehicle_lookup` returns (each remote id with the
   * price `_extract_price` reads from its payload) or the text of what it raises, the calls
   * that raise with the text of their exception, and the log of the calls made.
   */
  class RemoteClient {
    const lookup: Result<map<string, Option<real>>, string>
    const failures: map<Call, string>
    var calls: seq<Call>

    constructor(lookup: Result<map<string, Option<real>>, string>, failures: map<Call, string>)
      ensures this.lookup == lookup && this.failures == failures && calls == []
    {
      this.lookup := lookup;
      this.failures := failures;
      calls := [];
    }

    /** `build_vehicle_lookup()`. */
    method BuildVehicleLookup() returns (r: Result<map<string, Option<real>>, string>)
      modifies this
      ensures r == lookup && calls == old(calls) + [BuildLookup]
    {
      calls := calls + [BuildLookup];
      r := lookup;
    }

    /** Any other call: it is logged, and raises (with its text) when `failures` says so. */
    method Send(c: Call) returns (raised: Option<string>)
      modifies this
      ensures calls == old(calls) + [c]
      ensures raised.Some? <==> c in failures
      ensures raised.Some? ==> raised.value == failures[c]
    {
      calls := calls + [c];
      raised := if c in failures then Some(failures[c]) else None;
    }
  }

  /** `PipelineReport`: four counters and the list of error texts. */
  class PipelineReport {
    var created: nat
    var updated: nat
    var priceUpdates: nat
    var closed: nat
    var errors: seq<string>

    constructor()
      ensures created == 0 && updated == 0 && priceUpdates == 0 && closed == 0 && errors == []
    {
      created, updated, priceUpdates, closed := 0, 0, 0, 0;
      errors := [];
    }

    /** `as_dict`: the four counters under their names, and the number of errors. */
    function AsDict(): (d: map<string, int>)
      reads this
      ensures d.Keys == {"created", "updated", "price_updates", "closed", "errors"}
      ensures d["created"] == created && d["updated"] == updated && d["price_updates"] == priceUpdates
      ensures d["closed"] == closed && d["errors"] == |errors|
    {
      map["created" := created, "updated" := updated, "price_updates" := priceUpdates,
          "closed" := closed, "errors" := |errors|]
    }
  }

  // ---------------------------------------------------------------- what a run does, as values

  /** A run at some point: the report's counters and errors, and the client's call log. */
  datatype Tally = Tally(created: nat, updated: nat, priceUpdates: nat, closed: nat, errors: seq<string>, calls: seq<Call>)

  /** What one run works against: the vehicle view, the calls that raise, the remote lookup and `update_prices`. */
  datatype Setting = Setting(view: VehicleView, failures: map<Call, string>, remote: map<string, Option<real>>, updatePrices: bool)

  /** The error text the report gets when `c` raises with `message`. */
  function FailureText(view: VehicleView, c: Call, message: string): string {
    match c
    case BuildLookup => "Failed to fetch remote vehicles: " + message
    case CreateVehicle(v) => view.externalId(v) + ": creation failed: " + message
    case UpdateVehicle(v) => view.externalId(v) + ": update failed: " + message
    case UpdatePrice(id, _, _) => id + ": price update failed: " + message
    case CloseVehicle(id) => id + ": close failed: " + message
  }

  /** `_extract_price(vehicle_lookup.get(id, {}))`: no price for an id the lookup lacks. */
  function Current(remote: map<string, Option<real>>, id: string): Option<real> {
    if id in remote then remote[id] else None
  }

  /** `_handle_new_vehicle`. */
  function NewVehicle(s: Setting, v: Vehicle, t: Tally): Tally {
    var c := CreateVehicle(v);
    var t := t.(calls := t.calls + [c]);
    if c in s.failures then t.(errors := t.errors + [FailureText(s.view, c, s.failures[c])])
    else t.(created := t.created + 1)
  }

  /** `_handle_existing_vehicle`. */
  function ExistingVehicle(s: Setting, v: Vehicle, t: Tally): Tally {
    var id := s.view.externalId(v);
    var update := UpdateVehicle(v);
    var t := t.(calls := t.calls + [update]);
    if update in s.failures then t.(errors := t.errors + [FailureText(s.view, update, s.failures[update])])
    else
      var t := t.(updated := t.updated + 1);
      var current := Current(s.remote, id);
      if !s.updatePrices || s.view.salesPrice(v).None? then t
      else
        var price := s.view.salesPrice(v).value;
        var notify := s.view.requiresPriceDiscountFlag(v, current);
        if current.Some? && current.value == price && !notify then t
        else
          var push := UpdatePrice(id, price, notify);
          var t := t.(calls := t.calls + [push]);
          if push in s.failures then t.(errors := t.errors + [FailureText(s.view, push, s.failures[push])])
          else t.(priceUpdates := t.priceUpdates + 1)
  }

  /** One iteration of the loop over the desired vehicles: update a remote id, create any other. */
  function Handle(s: Setting, v: Vehicle, t: Tally): Tally {
    if s.view.externalId(v) in s.remote then ExistingVehicle(s, v, t) else NewVehicle(s, v, t)
  }

  /** `_close_vehicle`. */
  function CloseOne(s: Setting, id: string, t: Tally): Tally {
    var c := CloseVehicle(id);
    var t := t.(calls := t.calls + [c]);
    if c in s.failures then t.(errors := t.errors + [FailureText(s.view, c, s.failures[c])])
    else t.(closed := t.closed + 1)
  }

  /** The loop over the desired vehicles, in order. */
  function SyncVehicles(s: Setting, vs: seq<Vehicle>, t: Tally): Tally
    decreases |vs|
  {
    if vs == [] then t else Handle(s, vs[|vs| - 1], SyncVehicles(s, vs[..|vs| - 1], t))
  }

  /** The loop over the ids to close, in the order `ids`. */
  function CloseAll(s: Setting, ids: seq<string>, t: Tally): Tally
    decreases |ids|
  {
    if ids == [] then t else CloseOne(s, ids[|ids| - 1], CloseAll(s, ids[..|ids| - 1], t))
  }

  /**
   * `run` on a client whose log held `calls0`, for vehicles with distinct ids, closing (when
   * `closeMissing`) in the order `closeOrder`: fetch the lookup (a failure ends the run with
   * its one error), then each vehicle in order, then the closes.
   */
  function Synced(view: VehicleView, lookup: Result<map<string, Option<real>>, string>, failures: map<Call, string>,
                  vehicles: seq<Vehicle>, closeMissing: bool, updatePrices: bool, calls0: seq<Call>, closeOrder: seq<string>): Tally
  {
    var start := Tally(0, 0, 0, 0, [], calls0 + [BuildLookup]);
    match lookup
    case Failure(e) => start.(errors := [FailureText(view, BuildLookup, e)])
    case Success(remote) =>
      var s := Setting(view, failures, remote, updatePrices);
      var t := SyncVehicles(s, vehicles, start);
      if closeMissing then CloseAll(s, closeOrder, t) else t
  }

  /** The ids of the desired vehicles (`set(desired)`). */
  ghost function DesiredIds(view: VehicleView, vehicles: seq<Vehicle>): set<string> {
    set i | 0 <= i < |vehicles| :: view.externalId(vehicles[i])
  }

  /** `order` lists each id of `ids` exactly once. */
  ghost predicate ClosingOrder(order: seq<string>, ids: set<string>) {
    && (forall a, b :: 0 <= a < b < |order| ==> order[a] != order[b])
    && (forall k :: 0 <= k < |order| ==> order[k] in ids)
    && (forall id :: id in ids ==> id in order)
  }

  // ---------------------------------------------------------------- the synchroniser

  /** `VehicleSynchronizer`: the client it drives. */
  class VehicleSynchronizer {
    const client: RemoteClient

    constructor(client: RemoteClient)
      ensures this.client == client
    {
      this.client := client;
    }

    /** The run so far as seen from `report` and the client. */
    function Snapshot(report: PipelineReport): Tally
      reads client, report
    {
      Tally(report.created, report.updated, report.priceUpdates, report.closed, report.errors, client.calls)
    }

    /** `_handle_existing_vehicle`. */
    method HandleExistingVehicle(vehicle: Vehicle, lookup: map<string, Option<real>>, report: PipelineReport,
                                 updatePrices: bool, view: VehicleView)
      modifies client, report
      ensures Snapshot(report) == ExistingVehicle(Setting(view, client.failures, lookup, updatePrices), vehicle, old(Snapshot(report)))
    {
      var id := view.externalId(vehicle);
      var raised := client.Send(UpdateVehicle(vehicle));
      if raised.Some? {
        report.errors := report.errors + [FailureText(view, UpdateVehicle(vehicle), raised.value)];
        return;
      }
      report.updated := report.updated + 1;
      if !updatePrices {
        return;
      }
      var current := Current(lookup, id);
      if view.salesPrice(vehicle).None? {
        return;
      }
      var price := view.salesPrice(vehicle).value;
      var notify := view.requiresPriceDiscountFlag(vehicle, current);
      if current.Some? && current.value == price && !notify {
        return;
      }
      var push := UpdatePrice(id, price, notify);
      raised := client.Send(push);
      if raised.Some? {
        report.errors := report.errors + [FailureText(view, push, raised.value)];
      } else {
        report.priceUpdates := report.priceUpdates + 1;
      }
    }

    /** `_handle_new_vehicle`. */
    method HandleNewVehicle(vehicle: Vehicle, report: PipelineReport, view: VehicleView, ghost s: Setting)
      requires s.view == view && s.failures == client.failures
      modifies client, report
      ensures Snapshot(report) == NewVehicle(s, vehicle, old(Snapshot(report)))
    {
      var raised := client.Send(CreateVehicle(vehicle));
      if raised.Some? {
        report.errors := report.errors + [FailureText(view, CreateVehicle(vehicle), raised.value)];
      } else {
        report.created := report.created + 1;
      }
    }

    /** `_close_vehicle`. */
    method CloseVehicle(externalId: string, report: PipelineReport, view: VehicleView, ghost s: Setting)
      requires s.view == view && s.failures == client.failures
      modifies client, report
      ensures Snapshot(report) == CloseOne(s, externalId, old(Snapshot(report)))
    {
      var raised := client.Send(Call.CloseVehicle(externalId));
      if raised.Some? {
        report.errors := report.errors + [FailureText(view, Call.CloseVehicle(externalId), raised.value)];
      } else {
        report.closed := report.closed + 1;
      }
    }

    /** The loop of `run` over `desired.values()`: with distinct ids, the vehicles in input order. */
    method SyncDesired(vehicles: seq<Vehicle>, lookup: map<string, Option<real>>, report: PipelineReport,
                       updatePrices: bool, view: VehicleView, ghost s: Setting)
      requires s == Setting(view, client.failures, lookup, updatePrices)
      modifies client, report
      ensures Snapshot(report) == SyncVehicles(s, vehicles, old(Snapshot(report)))
    {
      ghost var start := Snapshot(report);
      var i := 0;
      while i < |vehicles|
        invariant 0 <= i <= |vehicles|
        invariant Snapshot(report) == SyncVehicles(s, vehicles[..i], start)
      {
        var vehicle := vehicles[i];
        if view.externalId(vehicle) in lookup {
          HandleExistingVehicle(vehicle, lookup, report, updatePrices, view);
        } else {
          HandleNewVehicle(vehicle, report, view, s);
        }
        assert vehicles[..i + 1][..i] == vehicles[..i];
        i := i + 1;
      }
      assert vehicles[..i] == vehicles;
    }

    /** The loop of `run` over `to_close`, a set taken in no particular order, the order taken being `order`. */
    method CloseMissing(toClose: set<string>, report: PipelineReport, view: VehicleView, ghost s: Setting)
      returns (ghost order: seq<string>)
      requires s.view == view && s.failures == client.failures
      modifies client, report
      ensures Snapshot(report) == CloseAll(s, order, old(Snapshot(report)))
      ensures ClosingOrder(order, toClose)
    {
      ghost var start := Snapshot(report);
      order := [];
      var rest := toClose;
      while rest != {}
        decreases |rest|
        invariant Snapshot(report) == CloseAll(s, order, start)
        invariant rest <= toClose
        invariant forall a, b :: 0 <= a < b < |order| ==> order[a] != order[b]
        invariant forall k :: 0 <= k < |order| ==> order[k] in toClose && order[k] !in rest
        invariant forall id :: id in toClose ==> id in rest || id in order
      {
        var id :| id in rest;
        CloseVehicle(id, report, view, s);
        assert (order + [id])[..|order|] == order;
        order := order + [id];
        rest := rest - {id};
      }
    }

    /**
     * `run`: a failed lookup gives a report with that one error; a repeated id raises out of
     * `run` (the message of `unique_vins`); otherwise the report is that of `Synced`, the ids
     * closed being those of the lookup the vehicles do not have, each once, in some order.
     */
    method Run(vehicles: seq<Vehicle>, view: VehicleView, closeMissing: bool, updatePrices: bool)
      returns (r: Result<PipelineReport, string>, ghost closeOrder: seq<string>)
      modifies client
      ensures r.Failure? <==> client.lookup.Success? && !DistinctKeys(vehicles, view.externalId)
      ensures r.Failure? ==> client.calls == old(client.calls) + [BuildLookup]
      ensures r.Failure? ==> exists j :: FirstRepeat(vehicles, view.externalId, j) && r.error == DuplicateMessage(view.externalId(vehicles[j]))
      ensures r.Success? ==> fresh(r.value)
      ensures r.Success? ==> Snapshot(r.value) == Synced(view, client.lookup, client.failures, vehicles, closeMissing, updatePrices, old(client.calls), closeOrder)
      ensures client.lookup.Failure? ==> r.Success? && Snapshot(r.value) == Tally(0, 0, 0, 0, [FailureText(view, BuildLookup, client.lookup.error)], old(client.calls) + [BuildLookup])
      ensures r.Success? && closeMissing && client.lookup.Success? ==> ClosingOrder(closeOrder, client.lookup.value.Keys - DesiredIds(view, vehicles))
    {
      closeOrder := [];
      var report := new PipelineReport();
      var lookup := client.BuildVehicleLookup();
      if lookup.Failure? {
        report.errors := report.errors + [FailureText(view, BuildLookup, lookup.error)];
        return Success(report), closeOrder;
      }
      var remote := lookup.value;
      var desired := UniqueKeyed(vehicles, view.externalId);
      if desired.Failure? {
        return Failure(DuplicateMessage(desired.error)), closeOrder;
      }
      ghost var s := Setting(view, client.failures, remote, updatePrices);
      SyncDesired(vehicles, remote, report, updatePrices, view, s);
      if closeMissing {
        assert desired.value.Keys == DesiredIds(view, vehicles);
        closeOrder := CloseMissing(remote.Keys - desired.value.Keys, report, view, s);
      }
      return Success(report), closeOrder;
    }
  }

  // ---------------------------------------------------------------- the call log explains the report

  /** The kinds of call, for counting. */
  datatype Kind = LookupKind | CreateKind | UpdateKind | PriceKind | CloseKind

  function KindOf(c: Call): Kind {
    match c
    case BuildLookup => LookupKind
    case CreateVehicle(_) => CreateKind
    case UpdateVehicle(_) => UpdateKind
    case UpdatePrice(_, _, _) => PriceKind
    case CloseVehicle(_) => CloseKind
  }

  /** What a call does to the report: one that succeeds counts under its kind, one that raises adds one error. */
  function Apply(view: VehicleView, failures: map<Call, string>, t: Tally, c: Call): Tally {
    var t := t.(calls := t.calls + [c]);
    if c in failures then t.(errors := t.errors + [FailureText(view, c, failures[c])])
    else match c
      case CreateVehicle(_) => t.(created := t.created + 1)
      case UpdateVehicle(_) => t.(updated := t.updated + 1)
      case UpdatePrice(_, _, _) => t.(priceUpdates := t.priceUpdates + 1)
      case CloseVehicle(_) => t.(closed := t.closed + 1)
      case BuildLookup => t
  }

  /** The report the calls `cs` leave, taken one after the other from `t`. */
  function Replay(view: VehicleView, failures: map<Call, string>, t: Tally, cs: seq<Call>): Tally
    decreases |cs|
  {
    if cs == [] then t else Apply(view, failures, Replay(view, failures, t, cs[..|cs| - 1]), cs[|cs| - 1])
  }

  /** The calls of `cs` of kind `k` that succeed. */
  function Succeeded(failures: map<Call, string>, cs: seq<Call>, k: Kind): nat
    decreases |cs|
  {
    if cs == [] then 0
    else Succeeded(failures, cs[..|cs| - 1], k) + if KindOf(cs[|cs| - 1]) == k && cs[|cs| - 1] !in failures then 1 else 0
  }

  /** The calls of `cs` that raise. */
  function Raised(failures: map<Call, string>, cs: seq<Call>): nat
    decreases |cs|
  {
    if cs == [] then 0 else Raised(failures, cs[..|cs| - 1]) + if cs[|cs| - 1] in failures then 1 else 0
  }

  /** Replaying logs the calls, counts each success under its kind and each raised call as one error. */
  lemma {:induction false} ReplayCounts(view: VehicleView, failures: map<Call, string>, t: Tally, cs: seq<Call>)
    ensures var r := Replay(view, failures, t, cs);
      && r.calls == t.calls + cs
      && r.created == t.created + Succeeded(failures, cs, CreateKind)
      && r.updated == t.updated + Succeeded(failures, cs, UpdateKind)
      && r.priceUpdates == t.priceUpdates + Succeeded(failures, cs, PriceKind)
      && r.closed == t.closed + Succeeded(failures, cs, CloseKind)
      && |r.errors| == |t.errors| + Raised(failures, cs)
    decreases |cs|
  {
    if cs != [] {
      var init, last := cs[..|cs| - 1], cs[|cs| - 1];
      ReplayCounts(view, failures, t, init);
      ApplyCounts(view, failures, Replay(view, failures, t, init), last);
      assert t.calls + init + [last] == t.calls + cs;
    }
  }

  /** One call counts once, under its kind when it succeeds and as an error when it raises. */
  lemma ApplyCounts(view: VehicleView, failures: map<Call, string>, t: Tally, c: Call)
    ensures var r := Apply(view, failures, t, c);
      && r.calls == t.calls + [c]
      && r.created == t.created + (if KindOf(c) == CreateKind && c !in failures then 1 else 0)
      && r.updated == t.updated + (if KindOf(c) == UpdateKind && c !in failures then 1 else 0)
      && r.priceUpdates == t.priceUpdates + (if KindOf(c) == PriceKind && c !in failures then 1 else 0)
      && r.closed == t.closed + (if KindOf(c) == CloseKind && c !in failures then 1 else 0)
      && |r.errors| == |t.errors| + (if c in failures then 1 else 0)
  {
  }

  /** Replaying one log after another is replaying the two joined. */
  lemma {:induction false} ReplayAppend(view: VehicleView, failures: map<Call, string>, t: Tally, a: seq<Call>, b: seq<Call>)
    ensures Replay(view, failures, t, a + b) == Replay(view, failures, Replay(view, failures, t, a), b)
    decreases |b|
  {
    if b == [] {
      assert a + b == a;
    } else {
      var init := b[..|b| - 1];
      assert (a + b)[..|a + b| - 1] == a + init;
      ReplayAppend(view, failures, t, a, init);
    }
  }

  /**
   * A price push is due for `v`: prices are being updated, `v`'s id is remote and its update
   * went through, `v` has a sales price, and it is not the case that the current price is
   * known, equals the sales price and no discount flag is needed.
   */
  predicate PriceUpdateDue(s: Setting, v: Vehicle) {
    var id := s.view.externalId(v);
    var current := Current(s.remote, id);
    && s.updatePrices
    && id in s.remote
    && UpdateVehicle(v) !in s.failures
    && s.view.salesPrice(v).Some?
    && !(current == s.view.salesPrice(v) && !s.view.requiresPriceDiscountFlag(v, current))
  }

  /** The price push for `v`: its id, its sales price and the discount flag for the current price. */
  function PriceCall(s: Setting, v: Vehicle): Call
    requires s.view.salesPrice(v).Some?
  {
    var id := s.view.externalId(v);
    UpdatePrice(id, s.view.salesPrice(v).value, s.view.requiresPriceDiscountFlag(v, Current(s.remote, id)))
  }

  /** The calls made for one desired vehicle: a create, or an update followed by a due price push. */
  function VehicleCalls(s: Setting, v: Vehicle): seq<Call> {
    if s.view.externalId(v) !in s.remote then [CreateVehicle(v)]
    else [UpdateVehicle(v)] + if PriceUpdateDue(s, v) then [PriceCall(s, v)] else []
  }

  /** Handling a vehicle is making its calls, each affecting the report as `Apply` says. */
  lemma HandleReplays(s: Setting, v: Vehicle, t: Tally)
    ensures Handle(s, v, t) == Replay(s.view, s.failures, t, VehicleCalls(s, v))
  {
    if s.view.externalId(v) !in s.remote {
      ReplayShort(s.view, s.failures, t, CreateVehicle(v), CreateVehicle(v));
    } else if PriceUpdateDue(s, v) {
      ReplayShort(s.view, s.failures, t, UpdateVehicle(v), PriceCall(s, v));
    } else {
      ReplayShort(s.view, s.failures, t, UpdateVehicle(v), UpdateVehicle(v));
    }
  }

  /** Replaying one call, or two, applies them in turn. */
  lemma ReplayShort(view: VehicleView, failures: map<Call, string>, t: Tally, c: Call, d: Call)
    ensures Replay(view, failures, t, [c]) == Apply(view, failures, t, c)
    ensures Replay(view, failures, t, [c, d]) == Apply(view, failures, Apply(view, failures, t, c), d)
  {
    assert [c][..0] == [];
    assert [c, d][..1] == [c];
  }

  /** The calls made for the desired vehicles `vs`, in order. */
  function FlatCalls(s: Setting, vs: seq<Vehicle>): seq<Call>
    decreases |vs|
  {
    if vs == [] then [] else FlatCalls(s, vs[..|vs| - 1]) + VehicleCalls(s, vs[|vs| - 1])
  }

  /** The close calls for `ids`, in order. */
  function CloseCalls(ids: seq<string>): (cs: seq<Call>)
    ensures |cs| == |ids| && forall k :: 0 <= k < |ids| ==> cs[k] == CloseVehicle(ids[k])
  {
    seq(|ids|, k requires 0 <= k < |ids| => CloseVehicle(ids[k]))
  }

  /** The vehicle loop is the replay of its calls. */
  lemma {:induction false} SyncVehiclesReplays(s: Setting, vs: seq<Vehicle>, t: Tally)
    ensures SyncVehicles(s, vs, t) == Replay(s.view, s.failures, t, FlatCalls(s, vs))
    decreases |vs|
  {
    if vs != [] {
      var init, last := vs[..|vs| - 1], vs[|vs| - 1];
      SyncVehiclesReplays(s, init, t);
      HandleReplays(s, last, SyncVehicles(s, init, t));
      ReplayAppend(s.view, s.failures, t, FlatCalls(s, init), VehicleCalls(s, last));
    }
  }

  /** The close loop is the replay of its calls. */
  lemma {:induction false} CloseAllReplays(s: Setting, ids: seq<string>, t: Tally)
    ensures CloseAll(s, ids, t) == Replay(s.view, s.failures, t, CloseCalls(ids))
    decreases |ids|
  {
    if ids != [] {
      var init := ids[..|ids| - 1];
      CloseAllReplays(s, init, t);
      assert CloseCalls(ids)[..|ids| - 1] == CloseCalls(init);
    }
  }

  /** The calls of a run after the lookup: those for the desired vehicles, then the closes. */
  function RunCalls(s: Setting, vehicles: seq<Vehicle>, closeMissing: bool, closeOrder: seq<string>): seq<Call> {
    FlatCalls(s, vehicles) + if closeMissing then CloseCalls(closeOrder) else []
  }

  /** A run whose lookup succeeds is the replay of the calls it makes after the lookup. */
  lemma RunReplays(view: VehicleView, lookup: Result<map<string, Option<real>>, string>, failures: map<Call, string>,
                   vehicles: seq<Vehicle>, closeMissing: bool, updatePrices: bool, calls0: seq<Call>, closeOrder: seq<string>)
    requires lookup.Success?
    ensures Synced(view, lookup, failures, vehicles, closeMissing, updatePrices, calls0, closeOrder)
         == Replay(view, failures, Tally(0, 0, 0, 0, [], calls0 + [BuildLookup]),
                   RunCalls(Setting(view, failures, lookup.value, updatePrices), vehicles, closeMissing, closeOrder))
  {
    var s := Setting(view, failures, lookup.value, updatePrices);
    var start := Tally(0, 0, 0, 0, [], calls0 + [BuildLookup]);
    SyncVehiclesReplays(s, vehicles, start);
    if closeMissing {
      CloseAllReplays(s, closeOrder, SyncVehicles(s, vehicles, start));
      ReplayAppend(view, failures, start, FlatCalls(s, vehicles), CloseCalls(closeOrder));
    } else {
      assert RunCalls(s, vehicles, closeMissing, closeOrder) == FlatCalls(s, vehicles);
    }
  }

  // ---------------------------------------------------------------- what a run promises

  /** Which calls a vehicle's calls can be. */
  lemma VehicleCallsHas(s: Setting, v: Vehicle, c: Call)
    ensures c in VehicleCalls(s, v) <==>
      || (c == CreateVehicle(v) && s.view.externalId(v) !in s.remote)
      || (c == UpdateVehicle(v) && s.view.externalId(v) in s.remote)
      || (PriceUpdateDue(s, v) && c == PriceCall(s, v))
  {
  }

  /** A call is among those for `vs` exactly when it is among those for one of them. */
  lemma {:induction false} FlatCallsHas(s: Setting, vs: seq<Vehicle>, c: Call)
    ensures c in FlatCalls(s, vs) <==> exists i :: 0 <= i < |vs| && c in VehicleCalls(s, vs[i])
    decreases |vs|
  {
    if vs != [] {
      var init := vs[..|vs| - 1];
      FlatCallsHas(s, init, c);
      if c in FlatCalls(s, init) {
        var i :| 0 <= i < |init| && c in VehicleCalls(s, init[i]);
        assert vs[i] == init[i];
      }
      if exists i :: 0 <= i < |vs| && c in VehicleCalls(s, vs[i]) {
        var i :| 0 <= i < |vs| && c in VehicleCalls(s, vs[i]);
        if i < |init| {
          assert vs[i] == init[i];
        }
      }
    }
  }

  /**
   * A run whose lookup succeeds logs the lookup and then `RunCalls`; it counts each call that
   * succeeds under its kind and reports each call that raises as exactly one error.
   */
  lemma RunCounts(view: VehicleView, lookup: Result<map<string, Option<real>>, string>, failures: map<Call, string>,
                  vehicles: seq<Vehicle>, closeMissing: bool, updatePrices: bool, calls0: seq<Call>, closeOrder: seq<string>)
    requires lookup.Success?
    ensures var r := Synced(view, lookup, failures, vehicles, closeMissing, updatePrices, calls0, closeOrder);
      var made := RunCalls(Setting(view, failures, lookup.value, updatePrices), vehicles, closeMissing, closeOrder);
      && r.calls == calls0 + [BuildLookup] + made
      && r.created == Succeeded(failures, made, CreateKind)
      && r.updated == Succeeded(failures, made, UpdateKind)
      && r.priceUpdates == Succeeded(failures, made, PriceKind)
      && r.closed == Succeeded(failures, made, CloseKind)
      && |r.errors| == Raised(failures, made)
  {
    var s := Setting(view, failures, lookup.value, updatePrices);
    var made := RunCalls(s, vehicles, closeMissing, closeOrder);
    RunReplays(view, lookup, failures, vehicles, closeMissing, updatePrices, calls0, closeOrder);
    ReplayCounts(view, failures, Tally(0, 0, 0, 0, [], calls0 + [BuildLookup]), made);
  }

  /** Each desired vehicle is updated when its id is remote and created when it is not. */
  lemma RunRoutes(s: Setting, vehicles: seq<Vehicle>, closeMissing: bool, closeOrder: seq<string>, i: nat)
    requires i < |vehicles|
    ensures var made := RunCalls(s, vehicles, closeMissing, closeOrder);
      var id := s.view.externalId(vehicles[i]);
      && (UpdateVehicle(vehicles[i]) in made <==> id in s.remote)
      && (CreateVehicle(vehicles[i]) in made <==> id !in s.remote)
  {
    var v := vehicles[i];
    FlatCallsHas(s, vehicles, UpdateVehicle(v));
    FlatCallsHas(s, vehicles, CreateVehicle(v));
    VehicleCallsHas(s, v, UpdateVehicle(v));
    VehicleCallsHas(s, v, CreateVehicle(v));
    forall j | 0 <= j < |vehicles|
      ensures UpdateVehicle(v) in VehicleCalls(s, vehicles[j]) ==> s.view.externalId(v) in s.remote
      ensures CreateVehicle(v) in VehicleCalls(s, vehicles[j]) ==> s.view.externalId(v) !in s.remote
    {
      VehicleCallsHas(s, vehicles[j], UpdateVehicle(v));
      VehicleCallsHas(s, vehicles[j], CreateVehicle(v));
    }
  }

  /** A price push is made exactly for the vehicles for which one is due, with their price and flag. */
  lemma RunPriceUpdates(s: Setting, vehicles: seq<Vehicle>, closeMissing: bool, closeOrder: seq<string>, c: Call)
    requires c.UpdatePrice?
    ensures c in RunCalls(s, vehicles, closeMissing, closeOrder) <==>
      exists i :: 0 <= i < |vehicles| && PriceUpdateDue(s, vehicles[i]) && c == PriceCall(s, vehicles[i])
  {
    FlatCallsHas(s, vehicles, c);
    forall i | 0 <= i < |vehicles|
      ensures c in VehicleCalls(s, vehicles[i]) <==> PriceUpdateDue(s, vehicles[i]) && c == PriceCall(s, vehicles[i])
    {
      VehicleCallsHas(s, vehicles[i], c);
    }
  }

  /** Listing distinct ids, the close calls hold one close per listed id. */
  lemma {:induction false} CloseCallsCount(ids: seq<string>, id: string)
    requires forall a, b :: 0 <= a < b < |ids| ==> ids[a] != ids[b]
    ensures multiset(CloseCalls(ids))[CloseVehicle(id)] == if id in ids then 1 else 0
    decreases |ids|
  {
    if ids != [] {
      var init := ids[..|ids| - 1];
      assert CloseCalls(ids) == CloseCalls(init) + [CloseVehicle(ids[|ids| - 1])];
      CloseCallsCount(init, id);
      assert id in ids <==> id in init || id == ids[|ids| - 1];
    }
  }

  /**
   * With `close_missing`, close is called exactly once for each remote id no desired vehicle
   * has, and for no other id; without it nothing is closed.
   */
  lemma RunCloses(s: Setting, vehicles: seq<Vehicle>, closeMissing: bool, closeOrder: seq<string>, id: string)
    requires closeMissing ==> ClosingOrder(closeOrder, s.remote.Keys - DesiredIds(s.view, vehicles))
    ensures multiset(RunCalls(s, vehicles, closeMissing, closeOrder))[CloseVehicle(id)]
         == if closeMissing && id in s.remote && id !in DesiredIds(s.view, vehicles) then 1 else 0
  {
    FlatCallsHas(s, vehicles, CloseVehicle(id));
    if exists i :: 0 <= i < |vehicles| && CloseVehicle(id) in VehicleCalls(s, vehicles[i]) {
      var i :| 0 <= i < |vehicles| && CloseVehicle(id) in VehicleCalls(s, vehicles[i]);
      VehicleCallsHas(s, vehicles[i], CloseVehicle(id));
    }
    assert multiset(FlatCalls(s, vehicles))[CloseVehicle(id)] == 0;
    if closeMissing {
      CloseCallsCount(closeOrder, id);
    }
  }

  /** The first call made for a desired vehicle: its update when its id is remote, its creation otherwise. */
  function FirstCall(s: Setting, v: Vehicle): Call {
    if s.view.externalId(v) in s.remote then UpdateVehicle(v) else CreateVehicle(v)
  }

  /** How many of `vs` have their first call raise. */
  function FirstCallFailures(s: Setting, vs: seq<Vehicle>): nat
    decreases |vs|
  {
    if vs == [] then 0
    else FirstCallFailures(s, vs[..|vs| - 1]) + if FirstCall(s, vs[|vs| - 1]) in s.failures then 1 else 0
  }

  /** Each vehicle handled adds one to `created` or `updated`, unless its first call raises. */
  lemma {:induction false} SyncVehiclesCounts(s: Setting, vs: seq<Vehicle>, t: Tally)
    ensures var r := SyncVehicles(s, vs, t);
      r.created + r.updated + FirstCallFailures(s, vs) == t.created + t.updated + |vs|
    decreases |vs|
  {
    if vs != [] {
      SyncVehiclesCounts(s, vs[..|vs| - 1], t);
    }
  }

  /** Closing leaves `created` and `updated` alone. */
  lemma {:induction false} CloseAllKeeps(s: Setting, ids: seq<string>, t: Tally)
    ensures CloseAll(s, ids, t).created == t.created && CloseAll(s, ids, t).updated == t.updated
    decreases |ids|
  {
    if ids != [] {
      CloseAllKeeps(s, ids[..|ids| - 1], t);
    }
  }

  /**
   * Each desired vehicle contributes exactly one of: a creation, an update, or the error of
   * its failed first call: `created + updated + those failures == |desired|`.
   */
  lemma RunCreatedUpdated(view: VehicleView, lookup: Result<map<string, Option<real>>, string>, failures: map<Call, string>,
                          vehicles: seq<Vehicle>, closeMissing: bool, updatePrices: bool, calls0: seq<Call>, closeOrder: seq<string>)
    requires lookup.Success?
    ensures var r := Synced(view, lookup, failures, vehicles, closeMissing, updatePrices, calls0, closeOrder);
      r.created + r.updated + FirstCallFailures(Setting(view, failures, lookup.value, updatePrices), vehicles) == |vehicles|
  {
    var s := Setting(view, failures, lookup.value, updatePrices);
    var start := Tally(0, 0, 0, 0, [], calls0 + [BuildLookup]);
    SyncVehiclesCounts(s, vehicles, start);
    CloseAllKeeps(s, closeOrder, SyncVehicles(s, vehicles, start));
  }
}
