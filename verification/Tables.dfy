/** Decision tables: a list of conditions, each with the answer to give if it is the first that fails. */
module Tables {
  import opened Records

  datatype Check<+O> = Check(holds: bool, otherwise: O)

  function First<O>(cs: seq<Check<O>>): Option<O> {
    if cs == [] then None else if !cs[0].holds then Some(cs[0].otherwise) else First(cs[1..])
  }

  /** Condition `i` fails and none before it does. */
  predicate FailsAt<O>(cs: seq<Check<O>>, i: nat) {
    i < |cs| && !cs[i].holds && forall j :: 0 <= j < i ==> cs[j].holds
  }

  lemma {:induction false} FirstAt<O>(cs: seq<Check<O>>, i: nat)
    requires FailsAt(cs, i)
    ensures First(cs) == Some(cs[i].otherwise)
  {
    if i > 0 {
      assert forall j :: 0 <= j < i - 1 ==> cs[1..][j] == cs[j + 1];
      FirstAt(cs[1..], i - 1);
    }
  }

  lemma {:induction false} FirstNone<O>(cs: seq<Check<O>>)
    requires forall i :: 0 <= i < |cs| ==> cs[i].holds
    ensures First(cs) == None
  {
    if cs != [] {
      assert forall j :: 0 <= j < |cs| - 1 ==> cs[1..][j] == cs[j + 1];
      FirstNone(cs[1..]);
    }
  }

  lemma {:induction false} Failing<O>(cs: seq<Check<O>>) returns (i: nat)
    requires exists c :: c in cs && !c.holds
    ensures FailsAt(cs, i)
  {
    if !cs[0].holds {
      i := 0;
    } else {
      assert cs == [cs[0]] + cs[1..];
      i := Failing(cs[1..]);
      assert forall j :: 0 < j < i + 1 ==> cs[j] == cs[1..][j - 1];
      i := i + 1;
    }
  }

  /** The answer is that of the first condition that fails, and there is none exactly when all hold. */
  lemma FirstExact<O>(cs: seq<Check<O>>, o: O)
    ensures First(cs) == Some(o) <==> exists i: nat :: FailsAt(cs, i) && cs[i].otherwise == o
    ensures First(cs) == None <==> forall c :: c in cs ==> c.holds
  {
    if c :| c in cs && !c.holds {
      var i := Failing(cs);
      FirstAt(cs, i);
    } else {
      FirstNone(cs);
    }
    if i: nat :| FailsAt(cs, i) && cs[i].otherwise == o {
      FirstAt(cs, i);
    }
  }

  lemma {:induction false} FirstOfTwo<O>(xs: seq<Check<O>>, ys: seq<Check<O>>)
    ensures First(xs + ys) == if First(xs).Some? then First(xs) else First(ys)
  {
    if xs == [] {
      assert xs + ys == ys;
    } else {
      assert (xs + ys)[1..] == xs[1..] + ys;
      FirstOfTwo(xs[1..], ys);
    }
  }

  lemma FirstOne<O>(holds: bool, o: O)
    ensures First([Check(holds, o)]) == if holds then None else Some(o)
  {
  }
}
