/** The job list of BPending.c: a last-in-first-out list of pending jobs.
    A job is identified by the object that embeds its BPending and by its role there. */
module Pending {

  /** Operation, RequestCancel and Done are the three jobs of the interface at address i,
      Schedule is the fair queue's own job, Other stands for jobs of unrelated components. */
  datatype Job = Operation(i: nat) | RequestCancel(i: nat) | Done(i: nat) | Schedule | Other(k: nat)

  ghost predicate Distinct<T>(s: seq<T>) {
    forall i, j :: 0 <= i < j < |s| ==> s[i] != s[j]
  }

  /** The list without the first occurrence of x. */
  function Without<T(==)>(s: seq<T>, x: T): seq<T> {
    if s == [] then [] else if s[0] == x then s[1..] else [s[0]] + Without(s[1..], x)
  }

  lemma {:induction false} WithoutAbsent<T>(s: seq<T>, x: T)
    requires x !in s
    ensures Without(s, x) == s
  {
    if s != [] {
      WithoutAbsent(s[1..], x);
    }
  }

  lemma {:induction false} WithoutAt<T>(s: seq<T>, x: T, i: nat)
    requires i < |s| && s[i] == x && x !in s[..i]
    ensures Without(s, x) == s[..i] + s[i + 1..]
  {
    if i > 0 {
      assert s[0] == s[..i][0];
      assert s[1..][..i - 1] == s[..i][1..];
      WithoutAt(s[1..], x, i - 1);
      assert s[1..][i..] == s[i + 1..];
    }
  }

  /** Unlinks the node if it is pending and pushes it on top. */
  function Set(jobs: seq<Job>, x: Job): seq<Job> {
    [x] + Without(jobs, x)
  }

  /** The jobs that will have been executed or unset before y is reached. */
  ghost function Over(jobs: seq<Job>, y: Job): set<Job> {
    if jobs == [] || jobs[0] == y then {} else {jobs[0]} + Over(jobs[1..], y)
  }

  lemma {:induction false} UnsetKeepsOthers(jobs: seq<Job>, x: Job, y: Job)
    requires Distinct(jobs)
    ensures Distinct(Without(jobs, x))
    ensures forall z :: z in Without(jobs, x) <==> z in jobs && z != x
    ensures x != y ==> Over(Without(jobs, x), y) == Over(jobs, y) - {x}
  {
    if jobs == [] {
    } else if jobs[0] == x {
      OverIsPending(jobs[1..], y);
    } else {
      UnsetKeepsOthers(jobs[1..], x, y);
      var rest := Without(jobs[1..], x);
      assert Without(jobs, x) == [jobs[0]] + rest;
      assert jobs == [jobs[0]] + jobs[1..];
      assert Without(jobs, x)[1..] == rest;
      assert jobs[0] !in jobs[1..];
    }
  }

  lemma {:induction false} OverIsPending(jobs: seq<Job>, y: Job)
    ensures forall z :: z in Over(jobs, y) ==> z in jobs && z != y
  {
    if jobs != [] && jobs[0] != y {
      OverIsPending(jobs[1..], y);
    }
  }

  /** Pushing x changes the pending state of x alone and puts x above every other job. */
  lemma SetPushes(jobs: seq<Job>, x: Job, y: Job)
    requires Distinct(jobs)
    ensures Distinct(Set(jobs, x))
    ensures forall z :: z in Set(jobs, x) <==> z in jobs || z == x
    ensures x != y ==> Over(Set(jobs, x), y) == Over(jobs, y) + {x}
    ensures Over(Set(jobs, x), x) == {}
  {
    UnsetKeepsOthers(jobs, x, y);
    ConsDistinct(x, Without(jobs, x));
    assert Set(jobs, x)[1..] == Without(jobs, x);
  }

  lemma ConsDistinct(x: Job, rest: seq<Job>)
    requires Distinct(rest) && x !in rest
    ensures Distinct([x] + rest)
  {
  }

  /** Taking the top job off leaves everything else as it was. */
  lemma PopTop(jobs: seq<Job>, y: Job)
    requires jobs != [] && Distinct(jobs)
    ensures Distinct(jobs[1..]) && jobs[0] !in jobs[1..]
    ensures forall z :: z in jobs[1..] <==> z in jobs && z != jobs[0]
    ensures jobs[0] == y ==> Over(jobs, y) == {}
    ensures jobs[0] != y ==> Over(jobs, y) == Over(jobs[1..], y) + {jobs[0]}
    ensures jobs[0] !in Over(jobs[1..], y)
  {
    OverIsPending(jobs[1..], y);
    assert jobs == [jobs[0]] + jobs[1..];
  }

  /** BPendingGroup together with the BPending operations, which all act on its list. */
  class PendingGroup {
    var jobs: seq<Job>

    constructor ()
      ensures jobs == []
    {
      jobs := [];
    }

    method SetJob(x: Job)
      modifies this
      ensures jobs == Set(old(jobs), x)
    {
      if x in jobs {
        Remove(x);
      } else {
        WithoutAbsent(jobs, x);
      }
      jobs := [x] + jobs;
    }

    method UnsetJob(x: Job)
      modifies this
      ensures jobs == Without(old(jobs), x)
    {
      if x in jobs {
        Remove(x);
      } else {
        WithoutAbsent(jobs, x);
      }
    }

    predicate IsSet(x: Job)
      reads this
    {
      x in jobs
    }

    /** Walks the list to the node and unlinks it. */
    method Remove(x: Job)
      requires x in jobs
      modifies this
      ensures jobs == Without(old(jobs), x)
    {
      var i := 0;
      while jobs[i] != x
        invariant 0 <= i < |jobs|
        invariant x !in jobs[..i]
        decreases |jobs| - i
      {
        i := i + 1;
      }
      WithoutAt(jobs, x, i);
      jobs := jobs[..i] + jobs[i + 1..];
    }

    /** Removes the top job; the caller then runs its handler. */
    method ExecuteJob() returns (x: Job)
      requires jobs != []
      modifies this
      ensures old(jobs) == [x] + jobs
    {
      x := jobs[0];
      jobs := jobs[1..];
    }
  }
}
