/**
 * The payee cache of sync/state_db.py and its healing in
 * SyncEngine.reconcile_payee_mappings: a cheap bulk list proposes, a lookup
 * per id decides.
 */
module PayeeCache {
  import opened Wrappers
  import opened DateWindow

  /** payee_mappings: budget and raw bank text to YNAB payee id. */
  type Mappings = map<(string, string), string>

  const PAYEE_RECONCILE_MIN_INTERVAL_DAYS := 1

  /** The answer to GET .../payees/{id}; a 404 and a payee flagged deleted are both Gone. */
  datatype Answer = Gone | Alive | NoAnswer

  /** What YNAB says during one sweep: a budget's bulk list, if it could be fetched, and each single payee. */
  datatype Replies = Replies(bulk: string -> Option<set<string>>, single: (string, string) -> Answer)

  function Learn(c: Mappings, budget: string, raw: string, id: string): Mappings {
    if (budget, raw) in c then c else c[(budget, raw) := id]
  }

  function WithoutIds(c: Mappings, budget: string, ids: set<string>): Mappings {
    map k | k in c && !(k.0 == budget && c[k] in ids) :: c[k]
  }

  function IdsOf(c: Mappings, budget: string): set<string> {
    set k | k in c && k.0 == budget :: c[k]
  }

  /** Missing from a list that was fetched, and individually confirmed gone. */
  predicate ConfirmedGone(r: Replies, budget: string, id: string) {
    r.bulk(budget).Some? && id !in r.bulk(budget).value && r.single(budget, id) == Gone
  }

  /** The cached ids of a budget that a sweep deletes. */
  function StaleIds(c: Mappings, budget: string, r: Replies): set<string> {
    set id | id in IdsOf(c, budget) && ConfirmedGone(r, budget, id)
  }

  /** The cache after a sweep over these budgets. */
  function Swept(c: Mappings, budgets: set<string>, r: Replies): Mappings {
    map k | k in c && !(k.0 in budgets && ConfirmedGone(r, k.0, c[k])) :: c[k]
  }

  /** A configured budget whose list was fetched without the id, and the id's own lookup says that it is gone. */
  ghost predicate GoneFrom(budgets: seq<string>, r: Replies, budget: string, id: string) {
    && budget in budgets && r.bulk(budget).Some? && id !in r.bulk(budget).value
    && r.single(budget, id) == Gone
  }

  class PayeeMappings {
    var mappings: Mappings
    var lastReconcileAt: Option<int>

    constructor ()
      ensures mappings == map[] && lastReconcileAt == None
    {
      mappings, lastReconcileAt := map[], None;
    }

    /** INSERT OR IGNORE: the first id learnt is the one that stays. */
    method UpsertPayeeMapping(budget: string, raw: string, id: string)
      modifies this`mappings
      ensures (budget, raw) in mappings
      ensures forall k :: k in old(mappings) ==> k in mappings && mappings[k] == old(mappings)[k]
      ensures forall k :: k in mappings && k !in old(mappings) ==> k == (budget, raw) && mappings[k] == id
      ensures mappings == Learn(old(mappings), budget, raw, id)
    {
      if (budget, raw) !in mappings {
        mappings := mappings[(budget, raw) := id];
      }
    }

    method DeletePayeeMappingsForIds(budget: string, ids: set<string>) returns (deleted: nat)
      modifies this`mappings
      ensures forall k :: k in mappings <==> k in old(mappings) && !(k.0 == budget && old(mappings)[k] in ids)
      ensures forall k :: k in mappings ==> mappings[k] == old(mappings)[k]
      ensures mappings == WithoutIds(old(mappings), budget, ids)
      ensures deleted == |old(mappings)| - |mappings|
    {
      if ids == {} {
        assert mappings == WithoutIds(mappings, budget, ids);
        return 0;
      }
      ghost var was := mappings;
      var before := |mappings|;
      mappings := WithoutIds(mappings, budget, ids);
      FewerMappings(mappings, was);
      deleted := before - |mappings|;
    }

    predicate ReconcileDue(now: int, minDays: int)
      reads this`lastReconcileAt
    {
      lastReconcileAt.None? || now - lastReconcileAt.value >= minDays * SECONDS_PER_DAY
    }

    /** The ids of one budget that the single lookups confirm as gone. */
    method FindStale(budget: string, active: set<string>, r: Replies) returns (stale: set<string>)
      requires r.bulk(budget) == Some(active)
      ensures stale == StaleIds(mappings, budget, r)
    {
      var cached := IdsOf(mappings, budget);
      var candidates := cached - active;
      stale := {};
      ghost var checked := {};
      while candidates != {}
        invariant candidates + checked == cached - active
        invariant stale == set id | id in checked && ConfirmedGone(r, budget, id)
        decreases |candidates|
      {
        var id :| id in candidates;
        if r.single(budget, id) == Gone {
          stale := stale + {id};
        }
        candidates, checked := candidates - {id}, checked + {id};
      }
    }

    /** reconcile_payee_mappings. */
    method ReconcilePayeeMappings(budgets: seq<string>, r: Replies, now: int) returns (healed: nat)
      modifies this
      ensures old(lastReconcileAt).Some? && now - old(lastReconcileAt).value < 86400 ==>
          mappings == old(mappings) && lastReconcileAt == old(lastReconcileAt)
      ensures old(lastReconcileAt).None? || now - old(lastReconcileAt).value >= 86400 ==>
          mappings == Swept(old(mappings), (set b | b in budgets), r) && lastReconcileAt == Some(now)
      ensures old(lastReconcileAt).None? || now - old(lastReconcileAt).value >= 86400 ==>
          forall k :: k in mappings <==> k in old(mappings) && !GoneFrom(budgets, r, k.0, old(mappings)[k])
      ensures healed == |old(mappings)| - |mappings|
    {
      healed := 0;
      if !ReconcileDue(now, PAYEE_RECONCILE_MIN_INTERVAL_DAYS) {
        return;
      }
      ghost var done: set<string> := {};
      assert mappings == Swept(mappings, {}, r);
      for i := 0 to |budgets|
        invariant done == set b | b in budgets[..i]
        invariant mappings == Swept(old(mappings), done, r)
        invariant healed == |old(mappings)| - |mappings|
      {
        var budget := budgets[i];
        assert budgets[..i + 1] == budgets[..i] + [budget];
        SweepOneMore(old(mappings), done, r, budget);
        done := done + {budget};
        if IdsOf(mappings, budget) == {} {
          continue;
        }
        var payees := r.bulk(budget);
        if payees.None? {
          continue;
        }
        var stale := FindStale(budget, payees.value, r);
        if stale == {} {
          continue;
        }
        var n := DeletePayeeMappingsForIds(budget, stale);
        healed := healed + n;
      }
      assert budgets[..|budgets|] == budgets;
      lastReconcileAt := Some(now);
    }
  }

  lemma FewerMappings(c: Mappings, c': Mappings)
    requires c.Keys <= c'.Keys
    ensures |c| <= |c'|
  {
    assert c'.Keys == c.Keys + (c'.Keys - c.Keys);
  }

  /** Sweeping one budget more deletes exactly its confirmed ids. */
  lemma SweepOneMore(c: Mappings, done: set<string>, r: Replies, budget: string)
    ensures Swept(c, done + {budget}, r)
         == WithoutIds(Swept(c, done, r), budget, StaleIds(Swept(c, done, r), budget, r))
    ensures StaleIds(Swept(c, done, r), budget, r) == {} ==> Swept(c, done + {budget}, r) == Swept(c, done, r)
    ensures IdsOf(Swept(c, done, r), budget) == {} || r.bulk(budget).None? ==>
        StaleIds(Swept(c, done, r), budget, r) == {}
  {
  }

  /** The single lookups tell the truth whenever they answer. */
  ghost predicate TruthfulSingles(r: Replies, alive: (string, string) -> bool) {
    forall b, id :: (r.single(b, id) == Gone ==> !alive(b, id)) && (r.single(b, id) == Alive ==> alive(b, id))
  }

  /** Complete: if a budget's list was fetched and holds only live payees, and no lookup failed, what survives lives. */
  lemma SweepIsComplete(c: Mappings, budgets: set<string>, r: Replies, alive: (string, string) -> bool, budget: string)
    requires TruthfulSingles(r, alive) && budget in budgets
    requires r.bulk(budget).Some? && forall id :: id in r.bulk(budget).value ==> alive(budget, id)
    requires forall id :: id in IdsOf(c, budget) ==> r.single(budget, id) != NoAnswer
    ensures forall id :: id in IdsOf(Swept(c, budgets, r), budget) ==> alive(budget, id)
  {
    forall id | id in IdsOf(Swept(c, budgets, r), budget) ensures alive(budget, id) {
      assert id in IdsOf(c, budget);
    }
  }

  // --- over every run -----------------------------------------------------------------------------

  /** Learning, the create path that drops an id YNAB no longer knows, and sweeps. */
  datatype Change =
    | Learnt(budget: string, raw: string, id: string)
    | Dropped(budget: string, ids: set<string>)
    | Reconciled(budgets: set<string>, replies: Replies)

  function Apply(c: Mappings, change: Change): Mappings {
    match change
    case Learnt(budget, raw, id) => Learn(c, budget, raw, id)
    case Dropped(budget, ids) => WithoutIds(c, budget, ids)
    case Reconciled(budgets, r) => Swept(c, budgets, r)
  }

  function Run(c: Mappings, changes: seq<Change>): Mappings
    decreases |changes|
  {
    if changes == [] then c else Run(Apply(c, changes[0]), changes[1..])
  }

  /** Safe for any bulk lists, however incomplete: learning and sweeping never lose a payee that is alive. */
  lemma {:induction false} LivePayeesStay(c: Mappings, changes: seq<Change>, alive: (string, string) -> bool,
                                          k: (string, string))
    requires forall ch :: ch in changes ==>
        !ch.Dropped? && (ch.Reconciled? ==> TruthfulSingles(ch.replies, alive))
    requires k in c && alive(k.0, c[k])
    ensures k in Run(c, changes) && Run(c, changes)[k] == c[k]
    decreases |changes|
  {
    if changes != [] {
      assert changes[0] in changes;
      LivePayeesStay(Apply(c, changes[0]), changes[1..], alive, k);
    }
  }

  ghost predicate AlwaysCached(c: Mappings, changes: seq<Change>, k: (string, string))
    decreases |changes|
  {
    k in c && (changes != [] ==> AlwaysCached(Apply(c, changes[0]), changes[1..], k))
  }

  /** An entry never changes its value; it can only be deleted, and learnt anew after that. */
  lemma {:induction false} ValuesChangeOnlyByDeletion(c: Mappings, changes: seq<Change>, k: (string, string))
    requires AlwaysCached(c, changes, k)
    ensures k in Run(c, changes) && Run(c, changes)[k] == c[k]
    decreases |changes|
  {
    if changes != [] {
      ValuesChangeOnlyByDeletion(Apply(c, changes[0]), changes[1..], k);
    }
  }
}
