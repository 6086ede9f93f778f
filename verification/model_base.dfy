/**
 * `ModelBase<TData>`: a screen model that keeps the open parameters and creates its data
 * while it has none. The abstract `CreateData` and `InitData` are hooks: what `CreateData`
 * would return (possibly `null`) is a parameter, and both calls are logged in `trace`.
 */
module Models {
  import opened Wrappers

  /** Identity of an `IScreenParams` object. */
  type ParamsId = nat

  datatype ModelStep = DataCreated | DataInitialised

  /** The hooks `Activate` runs: `CreateData` only while there is no data yet, `InitData` always. */
  function ActivationSteps<TData>(data: Option<TData>): (steps: seq<ModelStep>)
    ensures |steps| > 0 && steps[|steps| - 1] == DataInitialised
    ensures DataCreated in steps <==> data.None?
  {
    if data.None? then [DataCreated, DataInitialised] else [DataInitialised]
  }

  class ModelBase<TData> {
    var openParams: Option<ParamsId>
    /** `Data`; `None` is `null`. */
    var data: Option<TData>
    /** `CreateData` and `InitData` calls, in order. */
    ghost var trace: seq<ModelStep>

    /**
     * `Data` starts at `default(TData)`, given as `initial`: `None` for a reference or
     * nullable type, `Some` of the type's zero for a value type, whose data is never
     * `null` so that `CreateData` never runs (see `DataKept`).
     */
    constructor (initial: Option<TData>)
      ensures openParams == None && data == initial && trace == []
    {
      openParams := None;
      data := initial;
      trace := [];
    }

    /**
     * Stores the parameters, creates the data when there is none (`??=`), then runs
     * `InitData`. `created` is what `CreateData` returns; `None` is `null`, which leaves
     * the data `null` for the next activation to create again.
     */
    method Activate(params: Option<ParamsId>, created: Option<TData>)
      modifies this
      ensures openParams == params
      ensures old(data).Some? ==> data == old(data)
      ensures old(data).None? ==> data == created
      ensures trace == old(trace) + ActivationSteps(old(data))
    {
      openParams := params;
      if data.None? {
        data := created;
        trace := trace + [DataCreated];
      }
      trace := trace + [DataInitialised];
    }

    /** Does nothing. */
    method OnShow()
    {
    }

    /** Does nothing unless a subclass overrides it. */
    method Deactivate()
    {
    }
  }

  /** `Data` after activations whose `CreateData` would return each of `createds` in turn. */
  function DataAfter<TData>(data: Option<TData>, createds: seq<Option<TData>>): Option<TData>
    decreases createds
  {
    if createds == [] then data
    else DataAfter(if data.None? then createds[0] else data, createds[1..])
  }

  /** The hooks those activations run, in order. */
  function StepsOf<TData>(data: Option<TData>, createds: seq<Option<TData>>): seq<ModelStep>
    decreases createds
  {
    if createds == [] then []
    else ActivationSteps(data) + StepsOf(if data.None? then createds[0] else data, createds[1..])
  }

  /** Once there is data, no later activation replaces it or calls `CreateData`. */
  lemma {:induction false} DataKept<TData>(data: Option<TData>, createds: seq<Option<TData>>)
    requires data.Some?
    ensures DataAfter(data, createds) == data && DataCreated !in StepsOf(data, createds)
    decreases createds
  {
    if createds != [] {
      DataKept(data, createds[1..]);
    }
  }

  /** The data stays `null` exactly while every `CreateData` so far returned `null`. */
  lemma {:induction false} DataStaysNull<TData>(data: Option<TData>, createds: seq<Option<TData>>)
    ensures DataAfter(data, createds).None? <==> data.None? && forall i | 0 <= i < |createds| :: createds[i].None?
    decreases createds
  {
    if createds != [] {
      var next := if data.None? then createds[0] else data;
      DataStaysNull(next, createds[1..]);
      if data.Some? {
        DataKept(data, createds);
      }
      assert forall i | 1 <= i < |createds| :: createds[i] == createds[1..][i - 1];
    }
  }

  /** Every activation calls `InitData` exactly once. */
  lemma {:induction false} InitEveryTime<TData>(data: Option<TData>, createds: seq<Option<TData>>)
    ensures multiset(StepsOf(data, createds))[DataInitialised] == |createds|
    decreases createds
  {
    if createds != [] {
      InitEveryTime(if data.None? then createds[0] else data, createds[1..]);
    }
  }
}
