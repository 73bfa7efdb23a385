/**
 Voting power of sets of validators, and the overlap of two-thirds majorities.
 */
module VotingPower {
  type Validator = nat

  ghost function Weight(power: map<Validator, nat>, v: Validator): nat {
    if v in power then power[v] else 0
  }

  /** The sum of the powers of the members of s; outsiders weigh nothing. */
  ghost function Power(power: map<Validator, nat>, s: set<Validator>): nat
    decreases |s|
  {
    if s == {} then 0 else
      var v :| v in s;
      Weight(power, v) + Power(power, s - {v})
  }

  lemma {:induction false} PowerRemove(power: map<Validator, nat>, s: set<Validator>, v: Validator)
    requires v in s
    ensures Power(power, s) == Weight(power, v) + Power(power, s - {v})
    decreases |s|
  {
    var w :| w in s && Power(power, s) == Weight(power, w) + Power(power, s - {w});
    if w != v {
      PowerRemove(power, s - {w}, v);
      PowerRemove(power, s - {v}, w);
      assert s - {w} - {v} == s - {v} - {w};
    }
  }

  lemma PowerAdd(power: map<Validator, nat>, s: set<Validator>, v: Validator)
    requires v !in s
    ensures Power(power, s + {v}) == Power(power, s) + Weight(power, v)
  {
    PowerRemove(power, s + {v}, v);
    assert s + {v} - {v} == s;
  }

  lemma {:induction false} PowerUnion(power: map<Validator, nat>, a: set<Validator>, b: set<Validator>)
    ensures Power(power, a + b) + Power(power, a * b) == Power(power, a) + Power(power, b)
    decreases |a|
  {
    if a == {} {
      assert a + b == b && a * b == {};
    } else {
      var v :| v in a;
      var c := a - {v};
      PowerUnion(power, c, b);
      PowerRemove(power, a, v);
      if v in b {
        assert a + b == c + b;
        assert a * b == c * b + {v};
        PowerAdd(power, c * b, v);
      } else {
        assert a + b == c + b + {v};
        assert a * b == c * b;
        PowerAdd(power, c + b, v);
      }
    }
  }

  lemma PowerSubset(power: map<Validator, nat>, a: set<Validator>, b: set<Validator>)
    requires a <= b
    ensures Power(power, a) <= Power(power, b)
  {
    PowerUnion(power, a, b - a);
    assert a + (b - a) == b;
    assert a * (b - a) == {};
  }

  lemma {:induction false} PowerOfOutsiders(power: map<Validator, nat>, s: set<Validator>)
    requires s !! power.Keys
    ensures Power(power, s) == 0
    decreases |s|
  {
    if s != {} {
      var v :| v in s;
      PowerRemove(power, s, v);
      PowerOfOutsiders(power, s - {v});
    }
  }

  /** A validator set with its cached total power (types.ValidatorSet). */
  datatype Validators = Validators(power: map<Validator, nat>, total: nat)

  type ValidatorSet = vs: Validators | vs.total == Power(vs.power, vs.power.Keys)
    witness Validators(map[], 0)

  /** More than two thirds of the total power. */
  ghost predicate TwoThirds(vals: ValidatorSet, s: set<Validator>) {
    3 * Power(vals.power, s) > 2 * vals.total
  }

  /** Less than one third of the total power lies outside `honest`. */
  ghost predicate FewFaulty(vals: ValidatorSet, honest: set<Validator>) {
    3 * Power(vals.power, vals.power.Keys - honest) < vals.total
  }

  lemma PowerAtMostTotal(vals: ValidatorSet, s: set<Validator>)
    ensures Power(vals.power, s) <= vals.total
  {
    var inside := s * vals.power.Keys;
    var outside := s - vals.power.Keys;
    assert inside + outside == s && inside * outside == {};
    PowerUnion(vals.power, inside, outside);
    PowerOfOutsiders(vals.power, outside);
    PowerSubset(vals.power, inside, vals.power.Keys);
  }

  lemma TwoThirdsGrows(vals: ValidatorSet, a: set<Validator>, b: set<Validator>)
    requires TwoThirds(vals, a) && a <= b
    ensures TwoThirds(vals, b)
  {
    PowerSubset(vals.power, a, b);
  }

  /** Two majorities share an honest validator. */
  lemma HonestOverlap(vals: ValidatorSet, a: set<Validator>, b: set<Validator>, honest: set<Validator>)
    returns (v: Validator)
    requires TwoThirds(vals, a) && TwoThirds(vals, b) && FewFaulty(vals, honest)
    ensures v in a && v in b && v in honest && v in vals.power
  {
    PowerUnion(vals.power, a, b);
    PowerAtMostTotal(vals, a + b);
    var both := a * b;
    if both * vals.power.Keys <= vals.power.Keys - honest {
      PowerSubset(vals.power, both * vals.power.Keys, vals.power.Keys - honest);
      PowerUnion(vals.power, both * vals.power.Keys, both - vals.power.Keys);
      assert both * vals.power.Keys + (both - vals.power.Keys) == both;
      assert (both * vals.power.Keys) * (both - vals.power.Keys) == {};
      PowerOfOutsiders(vals.power, both - vals.power.Keys);
      assert false;
    }
    v :| v in both * vals.power.Keys && v !in vals.power.Keys - honest;
  }

  /** A majority contains an honest validator. */
  lemma HonestMember(vals: ValidatorSet, a: set<Validator>, honest: set<Validator>) returns (v: Validator)
    requires TwoThirds(vals, a) && FewFaulty(vals, honest)
    ensures v in a && v in honest && v in vals.power
  {
    v := HonestOverlap(vals, a, a, honest);
  }
}
