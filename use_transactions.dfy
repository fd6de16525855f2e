/** The list state of hooks/useTransactions.ts: the cells `transactions`,
    `loading` and `error` and the three operations that update them. The
    transaction service is not modelled; what each call to it returned or
    threw is a parameter. */
module UseTransactions {
  import opened Common
  import opened TransactionTypes

  const LoadFailed: string := "Erro ao carregar transações"
  const CreateFailed: string := "Erro ao criar transação"
  const DeleteFailed: string := "Erro ao deletar transação"

  /** `transactions.filter((t) => t.id !== id)`. */
  function WithoutId(ts: seq<Transaction>, id: string): (r: seq<Transaction>)
    ensures |r| <= |ts|
    ensures forall t :: t in r <==> t in ts && t.id != id
  {
    if ts == [] then []
    else
      var rest := WithoutId(ts[..|ts| - 1], id);
      var last := ts[|ts| - 1];
      assert forall t :: t in ts <==> t in ts[..|ts| - 1] || t == last by {
        assert ts == ts[..|ts| - 1] + [last];
      }
      if last.id != id then rest + [last] else rest
  }

  /** The ids present in a list. */
  function Ids(ts: seq<Transaction>): set<string>
  {
    set t | t in ts :: t.id
  }

  /** The filter works element by element: it distributes over
      concatenation, so the entries it keeps stay in their order. */
  lemma {:induction false} WithoutIdAppend(a: seq<Transaction>, b: seq<Transaction>, id: string)
    ensures WithoutId(a + b, id) == WithoutId(a, id) + WithoutId(b, id)
    decreases |b|
  {
    if b != [] {
      var init := b[..|b| - 1];
      var last := b[|b| - 1];
      assert (a + b)[..|a + b| - 1] == a + init;
      WithoutIdAppend(a, init, id);
    } else {
      assert a + b == a;
    }
  }

  lemma WithoutIdSingleton(t: Transaction, id: string)
    ensures WithoutId([t], id) == if t.id != id then [t] else []
  {
    assert [t][..0] == [];
  }

  /** Deleting twice removes nothing more than deleting once. */
  lemma {:induction false} WithoutIdIdempotent(ts: seq<Transaction>, id: string)
    ensures WithoutId(WithoutId(ts, id), id) == WithoutId(ts, id)
  {
    if ts != [] {
      var init := ts[..|ts| - 1];
      var last := ts[|ts| - 1];
      WithoutIdIdempotent(init, id);
      if last.id != id {
        WithoutIdAppend(WithoutId(init, id), [last], id);
        WithoutIdSingleton(last, id);
      }
    }
  }

  /** Deleting an id no entry carries leaves the list as it was. */
  lemma {:induction false} WithoutAbsentId(ts: seq<Transaction>, id: string)
    requires id !in Ids(ts)
    ensures WithoutId(ts, id) == ts
  {
    if ts != [] {
      var init := ts[..|ts| - 1];
      assert Ids(init) <= Ids(ts) by {
        forall x | x in Ids(init) ensures x in Ids(ts) {
          var t :| t in init && t.id == x;
          assert t in ts by { assert ts == init + [ts[|ts| - 1]]; }
        }
      }
      assert ts[|ts| - 1] in ts;
      WithoutAbsentId(init, id);
      assert ts == init + [ts[|ts| - 1]];
    }
  }

  /** Deleting a transaction just created with a fresh id gives back the
      list it was prepended to. */
  lemma CreateThenDelete(t: Transaction, ts: seq<Transaction>)
    requires t.id !in Ids(ts)
    ensures WithoutId([t] + ts, t.id) == ts
  {
    WithoutIdAppend([t], ts, t.id);
    WithoutIdSingleton(t, t.id);
    WithoutAbsentId(ts, t.id);
  }

  class TransactionsState {
    var transactions: seq<Transaction>
    var loading: bool
    var error: Option<string>

    /** The state as first rendered: no transactions, not loading, no error. */
    constructor ()
      ensures transactions == [] && !loading && error == None
    {
      transactions := [];
      loading := false;
      error := None;
    }

    /** The first update of `loadTransactions`, made before the service is
        awaited. */
    method BeginLoad()
      modifies this
      ensures loading && error == None && transactions == old(transactions)
    {
      loading := true;
      error := None;
    }

    /** The second update of `loadTransactions`, once the service answered:
        the fetched list replaces the old one, or the error is recorded and
        the old list kept; loading ends either way. */
    method EndLoad(fetched: Result<seq<Transaction>, Thrown>)
      modifies this
      ensures !loading
      ensures fetched.Ok? ==> transactions == fetched.value && error == old(error)
      ensures fetched.Err? ==>
                transactions == old(transactions) && error == Some(MessageOf(fetched.error, LoadFailed))
    {
      match fetched {
        case Ok(ts) =>
          transactions := ts;
        case Err(e) =>
          error := Some(MessageOf(e, LoadFailed));
      }
      loading := false;
    }

    /** `loadTransactions`: both updates with the service call between them. */
    method LoadTransactions(fetched: Result<seq<Transaction>, Thrown>)
      modifies this
      ensures !loading
      ensures fetched.Ok? ==> transactions == fetched.value && error == None
      ensures fetched.Err? ==>
                transactions == old(transactions) && error == Some(MessageOf(fetched.error, LoadFailed))
    {
      BeginLoad();
      EndLoad(fetched);
    }

    /** `createTransaction`: clears the error; a created transaction is put
        in front of the list and returned, a failure is recorded and gives
        null. */
    method CreateTransaction(created: Result<Transaction, Thrown>) returns (r: Option<Transaction>)
      modifies this
      ensures loading == old(loading)
      ensures created.Ok? ==>
                r == Some(created.value) && transactions == [created.value] + old(transactions) &&
                error == None
      ensures created.Err? ==>
                r == None && transactions == old(transactions) &&
                error == Some(MessageOf(created.error, CreateFailed))
    {
      error := None;
      match created {
        case Ok(t) =>
          transactions := [t] + transactions;
          r := Some(t);
        case Err(e) =>
          error := Some(MessageOf(e, CreateFailed));
          r := None;
      }
    }

    /** `deleteTransaction`: clears the error; after the service deleted the
        transaction every entry with its id leaves the list and true is
        returned, a failure is recorded and gives false. */
    method DeleteTransaction(id: string, deleted: Outcome<Thrown>) returns (ok: bool)
      modifies this
      ensures loading == old(loading)
      ensures ok <==> deleted.Pass?
      ensures deleted.Pass? ==> transactions == WithoutId(old(transactions), id) && error == None
      ensures deleted.Fail? ==>
                transactions == old(transactions) && error == Some(MessageOf(deleted.error, DeleteFailed))
    {
      error := None;
      match deleted {
        case Pass =>
          transactions := WithoutId(transactions, id);
          ok := true;
        case Fail(e) =>
          error := Some(MessageOf(e, DeleteFailed));
          ok := false;
      }
    }
  }

  /** Creating a transaction with a fresh id and then deleting it leaves the
      list as it was, with no error. */
  method CreateThenDeleteRestores(s: TransactionsState, t: Transaction)
    requires t.id !in Ids(s.transactions)
    modifies s
    ensures s.transactions == old(s.transactions) && s.error == None
  {
    var _ := s.CreateTransaction(Ok(t));
    CreateThenDelete(t, old(s.transactions));
    var _ := s.DeleteTransaction(t.id, Pass);
  }
}
