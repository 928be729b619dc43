/** The chaos transaction generator (backend/app/simulator/chaos_simulator.py).
    The insertion-ordered dictionary of injections is an order of keys plus a
    map; the random draws of one generation step are parameters. */
module Chaos {
  import opened Basics
  import opened Models

  datatype Injection = Injection(issuer: Option<string>, errorCode: string, failureRate: real, latencyMs: int)

  const Issuers: seq<string> := ["CHASE", "BOA", "WELLS", "STRIPE_TEST"]

  /** Values drawn for the fields that do not take part in the fault logic. */
  datatype Cosmetics = Cosmetics(
    transactionId: string, timestamp: string, amount: real,
    paymentMethod: PaymentMethod, region: string)

  /** An injection applies to `issuer` (or to all issuers) and its uniform draw falls below its rate. */
  predicate Triggers(inj: Injection, issuer: string, draw: real)
    ensures inj.issuer.Some? && inj.issuer.value != issuer ==> !Triggers(inj, issuer, draw)
    ensures (inj.issuer.None? || inj.issuer.value == issuer) && 0.0 <= draw < 1.0 <= inj.failureRate ==> Triggers(inj, issuer, draw)
    ensures inj.failureRate <= 0.0 <= draw ==> !Triggers(inj, issuer, draw)
  {
    (inj.issuer.None? || inj.issuer.value == issuer) && draw < inj.failureRate
  }

  /** The index of the LAST injection, in insertion order, that triggers. */
  function LastTriggered(active: seq<Injection>, issuer: string, draws: seq<real>): (r: Option<nat>)
    requires |draws| == |active|
    ensures r.Some? ==>
              && r.value < |active|
              && Triggers(active[r.value], issuer, draws[r.value])
              && forall j :: r.value < j < |active| ==> !Triggers(active[j], issuer, draws[j])
    ensures r.None? ==> forall j :: 0 <= j < |active| ==> !Triggers(active[j], issuer, draws[j])
  {
    if active == [] then None
    else if Triggers(active[|active| - 1], issuer, draws[|active| - 1]) then Some(|active| - 1)
    else LastTriggered(active[..|active| - 1], issuer, draws[..|active| - 1])
  }

  /** The fault part of a generated transaction. */
  datatype Outcome = Outcome(status: TransactionStatus, errorCode: Option<string>, latencyMs: int)

  /** The fault part as decided by the last triggering injection, if any. */
  function Decide(active: seq<Injection>, issuer: string, baseLatency: int,
                  draws: seq<real>, jitters: seq<int>): (o: Outcome)
    requires |draws| == |active| && |jitters| == |active|
    ensures LastTriggered(active, issuer, draws).None? ==> o == Outcome(Success, None, baseLatency)
    ensures LastTriggered(active, issuer, draws).Some? ==>
              var k := LastTriggered(active, issuer, draws).value;
              o == Outcome(Failed, Some(active[k].errorCode), active[k].latencyMs + jitters[k])
  {
    match LastTriggered(active, issuer, draws)
    case None => Outcome(Success, None, baseLatency)
    case Some(k) => Outcome(Failed, Some(active[k].errorCode), active[k].latencyMs + jitters[k])
  }

  /** An injection that names another issuer never influences the outcome:
      its draw can be anything. */
  lemma {:induction false} OtherIssuerIrrelevant(active: seq<Injection>, issuer: string, draws: seq<real>, j: nat, u: real)
    requires |draws| == |active| && j < |active|
    requires active[j].issuer.Some? && active[j].issuer.value != issuer
    ensures LastTriggered(active, issuer, draws[j := u]) == LastTriggered(active, issuer, draws)
  {
    var n := |active|;
    if j < n - 1 {
      assert draws[j := u][..n - 1] == draws[..n - 1][j := u];
      OtherIssuerIrrelevant(active[..n - 1], issuer, draws[..n - 1], j, u);
    } else {
      assert draws[j := u][..n - 1] == draws[..n - 1];
    }
  }

  /** An injection for the drawn issuer (or for all) with rate at least 1
      always triggers, so the transaction fails. */
  lemma CertainFailure(active: seq<Injection>, issuer: string, draws: seq<real>, j: nat)
    requires |draws| == |active| && j < |active|
    requires forall i :: 0 <= i < |draws| ==> 0.0 <= draws[i] < 1.0
    requires active[j].issuer.None? || active[j].issuer.value == issuer
    requires active[j].failureRate >= 1.0
    ensures LastTriggered(active, issuer, draws).Some?
    ensures LastTriggered(active, issuer, draws).value >= j
  {
  }

  /** With the single injection {CHASE, rate 1.0, error "500"} active, every
      CHASE transaction fails with "500" and other issuers are untouched. */
  lemma ChaseOutageScenario(issuer: string, baseLatency: int, draw: real, jitter: int)
    requires 0.0 <= draw < 1.0
    ensures var o := Decide([Injection(Some("CHASE"), "500", 1.0, 1500)], issuer, baseLatency, [draw], [jitter]);
            if issuer == "CHASE" then o == Outcome(Failed, Some("500"), 1500 + jitter)
            else o == Outcome(Success, None, baseLatency)
  {
  }

  /** The same list without `k`, other keys in their original order. */
  function Without(order: seq<string>, k: string): (r: seq<string>)
    ensures k !in r
    ensures forall x :: x in r <==> x in order && x != k
    ensures |r| <= |order|
  {
    if order == [] then []
    else if order[0] == k then Without(order[1..], k)
    else [order[0]] + Without(order[1..], k)
  }

  predicate NoDuplicates(s: seq<string>)
  {
    forall i, j :: 0 <= i < j < |s| ==> s[i] != s[j]
  }

  lemma {:induction false} WithoutKeepsDistinct(order: seq<string>, k: string)
    requires NoDuplicates(order)
    ensures NoDuplicates(Without(order, k))
  {
    if order != [] {
      var rest := order[1..];
      assert NoDuplicates(rest) by {
        forall i, j | 0 <= i < j < |rest| ensures rest[i] != rest[j] {
          assert rest[i] == order[i + 1] && rest[j] == order[j + 1];
        }
      }
      WithoutKeepsDistinct(rest, k);
      if order[0] != k {
        var r := Without(rest, k);
        assert order[0] !in rest by {
          forall j | 0 <= j < |rest| ensures rest[j] != order[0] {
            assert rest[j] == order[j + 1];
          }
        }
        forall i, j | 0 <= i < j < |[order[0]] + r| ensures ([order[0]] + r)[i] != ([order[0]] + r)[j] {
          if i == 0 {
            assert ([order[0]] + r)[j] == r[j - 1] && r[j - 1] in r;
          } else {
            assert ([order[0]] + r)[i] == r[i - 1] && ([order[0]] + r)[j] == r[j - 1];
          }
        }
      }
    }
  }

  /** The injections in iteration order. */
  function InOrder(order: seq<string>, injections: map<string, Injection>): (r: seq<Injection>)
    requires forall k :: k in order ==> k in injections
    ensures |r| == |order|
    ensures forall i :: 0 <= i < |order| ==> r[i] == injections[order[i]]
  {
    if order == [] then []
    else InOrder(order[..|order| - 1], injections) + [injections[order[|order| - 1]]]
  }

  class ChaosSimulator {
    const baseTps: int
    /** The keys of `activeInjections` in insertion order. */
    var order: seq<string>
    var activeInjections: map<string, Injection>

    ghost predicate Valid()
      reads this
    {
      && NoDuplicates(order)
      && forall k :: k in activeInjections <==> k in order
    }

    constructor (baseTps: int := 1)
      ensures Valid() && this.baseTps == baseTps
      ensures order == [] && activeInjections == map[]
    {
      this.baseTps := baseTps;
      order, activeInjections := [], map[];
    }

    /** The active injections, in the order they are iterated. */
    function Active(): seq<Injection>
      reads this
      requires Valid()
    {
      InOrder(order, activeInjections)
    }

    /** Registers (or overwrites) injection `id`. An existing id keeps its
        place in the iteration order; a new one goes last. */
    method InjectFailure(id: string, issuer: Option<string> := None, errorCode: string := "500",
                         failureRate: real := 0.5, latencyMs: int := 1500)
      returns (message: string)
      requires Valid()
      modifies this
      ensures Valid()
      ensures activeInjections == old(activeInjections)[id := Injection(issuer, errorCode, failureRate, latencyMs)]
      ensures order == if id in old(order) then old(order) else old(order) + [id]
      ensures message == "Injection " + id + " started."
    {
      if id !in activeInjections {
        order := order + [id];
      }
      activeInjections := activeInjections[id := Injection(issuer, errorCode, failureRate, latencyMs)];
      message := "Injection " + id + " started.";
    }

    /** Removes injection `id` if present; a no-op otherwise. */
    method StopInjection(id: string)
      requires Valid()
      modifies this
      ensures Valid()
      ensures activeInjections == old(activeInjections) - {id}
      ensures order == Without(old(order), id)
      ensures id !in old(activeInjections) ==> order == old(order) && activeInjections == old(activeInjections)
      ensures forall i :: 0 <= i < |old(order)| && old(order)[i] == id ==> order == old(order)[..i] + old(order)[i + 1..]
    {
      forall i | 0 <= i < |order| && order[i] == id
        ensures Without(order, id) == order[..i] + order[i + 1..]
      {
        WithoutIsSplice(order, id, i);
      }
      if id in activeInjections {
        WithoutKeepsDistinct(order, id);
        order := Without(order, id);
        activeInjections := activeInjections - {id};
      } else {
        WithoutAbsent(order, id);
      }
    }

    /** One generation step: a baseline transaction for the drawn issuer,
        overridden by each triggering injection in insertion order, so the
        last one to trigger decides status, error code and latency. */
    method GenerateTransaction(issuerIndex: nat, baseLatency: int, draws: seq<real>, jitters: seq<int>,
                               cosmetics: Cosmetics) returns (tx: Transaction)
      requires Valid()
      requires issuerIndex < |Issuers| && 50 <= baseLatency <= 300
      requires |draws| == |order| && |jitters| == |order|
      requires forall i :: 0 <= i < |draws| ==> 0.0 <= draws[i] < 1.0
      requires forall i :: 0 <= i < |jitters| ==> -100 <= jitters[i] <= 100
      ensures tx.issuer == Issuers[issuerIndex] && tx.issuer in Issuers
      ensures Outcome(tx.status, tx.errorCode, tx.latencyMs) == Decide(Active(), tx.issuer, baseLatency, draws, jitters)
      ensures tx.status == Success || tx.status == Failed
      ensures tx.status == Success ==> tx.errorCode == None && 50 <= tx.latencyMs <= 300
      ensures tx.status == Failed ==>
                exists k :: 0 <= k < |order| &&
                  tx.errorCode == Some(activeInjections[order[k]].errorCode) &&
                  activeInjections[order[k]].latencyMs - 100 <= tx.latencyMs <= activeInjections[order[k]].latencyMs + 100
      ensures tx.processor == "STRIPE" && tx.currency == "USD" && tx.metadata == map["environment" := "production"]
    {
      var issuer := Issuers[issuerIndex];
      var status, errorCode, latency := Success, None, baseLatency;
      ghost var active := Active();
      for i := 0 to |order|
        invariant Outcome(status, errorCode, latency) == Decide(active[..i], issuer, baseLatency, draws[..i], jitters[..i])
      {
        var params := activeInjections[order[i]];
        assert active[..i + 1][..i] == active[..i] && draws[..i + 1][..i] == draws[..i];
        assert jitters[..i + 1][..i] == jitters[..i];
        if params.issuer.None? || params.issuer.value == issuer {
          if draws[i] < params.failureRate {
            status := Failed;
            errorCode := Some(params.errorCode);
            latency := params.latencyMs + jitters[i];
          }
        }
      }
      assert active[..|order|] == active && draws[..|order|] == draws && jitters[..|order|] == jitters;
      tx := Transaction(cosmetics.transactionId, cosmetics.timestamp, cosmetics.amount, "USD",
                        cosmetics.paymentMethod, issuer, "STRIPE", status, errorCode, latency,
                        0, None, cosmetics.region, map["environment" := "production"]);
    }
  }

  /** In an order without duplicates, removing a key is cutting it out at its
      position: the keys before and after it keep their relative order. */
  lemma {:induction false} WithoutIsSplice(order: seq<string>, k: string, i: nat)
    requires NoDuplicates(order) && i < |order| && order[i] == k
    ensures Without(order, k) == order[..i] + order[i + 1..]
  {
    var rest := order[1..];
    assert NoDuplicates(rest) by {
      forall a, b | 0 <= a < b < |rest| ensures rest[a] != rest[b] {
        assert rest[a] == order[a + 1] && rest[b] == order[b + 1];
      }
    }
    if i == 0 {
      assert k !in rest by {
        forall j | 0 <= j < |rest| ensures rest[j] != k {
          assert rest[j] == order[j + 1];
        }
      }
      WithoutAbsent(rest, k);
      assert order[i + 1..] == rest;
    } else {
      assert order[0] != k;
      WithoutIsSplice(rest, k, i - 1);
      assert rest[..i - 1] == order[1..i];
      assert rest[i - 1 + 1..] == order[i + 1..];
      assert order[..i] == [order[0]] + order[1..i];
    }
  }

  lemma {:induction false} WithoutAbsent(order: seq<string>, k: string)
    requires k !in order
    ensures Without(order, k) == order
  {
    if order != [] {
      WithoutAbsent(order[1..], k);
    }
  }
}
