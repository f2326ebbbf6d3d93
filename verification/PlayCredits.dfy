/** Play credits: one for each milestone of the people counter that is passed
    upwards. */
module PlayCredits {

  /** The counter, the credits, and the number of people a credit costs. */
  datatype Tally = Tally(people: nat, credits: int, target: nat)

  function Milestones(people: nat, target: nat): nat
    requires target >= 1
  {
    people / target
  }

  /** set_people, with award_credits. */
  function Recounted(t: Tally, value: int): Tally
    requires t.target >= 1
  {
    var people := if value > 0 then value else 0;
    var earned := Milestones(people, t.target) - Milestones(t.people, t.target);
    t.(people := people, credits := t.credits + if earned > 0 then earned else 0)
  }

  function CountAll(t: Tally, values: seq<int>): (u: Tally)
    requires t.target >= 1
    ensures u.target == t.target
  {
    if values == [] then t else Recounted(CountAll(t, values[..|values| - 1]), values[|values| - 1])
  }

  /** No count falls back below a milestone the one before it had reached. */
  ghost predicate NeverFallsBack(t: Tally, values: seq<int>)
    requires t.target >= 1
  {
    forall k :: 0 <= k < |values| ==>
      Milestones(CountAll(t, values[..k]).people, t.target) <= Milestones(CountAll(t, values[..k + 1]).people, t.target)
  }

  lemma RecountGains(t: Tally, value: int)
    requires t.target >= 1
    ensures var u := Recounted(t, value);
            var gained := Milestones(u.people, t.target) - Milestones(t.people, t.target);
            && (value >= 0 ==> u.people == value) && (value < 0 ==> u.people == 0) && u.target == t.target
            && u.credits - t.credits >= gained && u.credits >= t.credits
            && (u.credits - t.credits == gained <==> gained >= 0) && (gained < 0 ==> u.credits == t.credits)
  {
  }

  /** Over any counts at least the milestones gained are paid out, and exactly those
      if and only if no count ever fell back below a milestone: after a fall the same
      milestone is paid for again. */
  lemma {:induction false} CreditsAreMilestonesIff(t: Tally, values: seq<int>)
    requires t.target >= 1
    ensures var u := CountAll(t, values);
            var gained := Milestones(u.people, t.target) - Milestones(t.people, t.target);
            && u.credits >= t.credits
            && u.credits - t.credits >= gained
            && (u.credits - t.credits == gained <==> NeverFallsBack(t, values))
  {
    if values != [] {
      var n := |values| - 1;
      var before := values[..n];
      CreditsAreMilestonesIff(t, before);
      RecountGains(CountAll(t, before), values[n]);
      assert values[..n + 1] == values;
      forall k | 0 <= k <= n ensures before[..k] == values[..k] {
      }
      FallsBackSnoc(t, values);
    }
  }

  lemma FallsBackSnoc(t: Tally, values: seq<int>)
    requires t.target >= 1 && values != []
    ensures var before := values[..|values| - 1];
            NeverFallsBack(t, values) <==>
              NeverFallsBack(t, before)
              && Milestones(CountAll(t, before).people, t.target) <= Milestones(CountAll(t, values).people, t.target)
  {
    hide CountAll, Milestones;
    var n := |values| - 1;
    var before := values[..n];
    assert values[..n + 1] == values;
    forall k | 0 <= k <= n ensures before[..k] == values[..k] {
    }
    if NeverFallsBack(t, values) {
      forall k | 0 <= k < n
        ensures Milestones(CountAll(t, before[..k]).people, t.target)
                <= Milestones(CountAll(t, before[..k + 1]).people, t.target)
      {
        assert before[..k] == values[..k] && before[..k + 1] == values[..k + 1];
      }
      assert values[..n] == before;
    }
  }

  // ----------------------------------------------------------- in its own form

  class Counter {
    var people: nat
    var credits: int
    var target: nat

    function State(): Tally
      reads this
    {
      Tally(people, credits, target)
    }

    constructor (target: nat)
      requires target >= 1
      ensures State() == Tally(0, 0, target)
    {
      people, credits, this.target := 0, 0, target;
    }

    method AwardCredits(previous: nat)
      requires target >= 1
      modifies this`credits
      ensures var earned := people / target - previous / target;
              credits == old(credits) + if earned > 0 then earned else 0
    {
      var earned := people / target - previous / target;
      if earned > 0 {
        credits := credits + earned;
      }
    }

    method SetPeople(value: int)
      requires target >= 1
      modifies this
      ensures State() == Recounted(old(State()), value)
    {
      var previous := people;
      people := if value > 0 then value else 0;
      AwardCredits(previous);
    }
  }
}
