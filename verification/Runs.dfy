/** Runs played forward, for the concrete runs that show what the service does not guarantee. */
module Runs {
  import opened World

  function Play(w: World, actions: seq<Action>): World
    decreases |actions|
  {
    if actions == [] then w else Play(Act(w, actions[0]), actions[1..])
  }

  lemma {:induction false} RunThenPlay(before: seq<Action>, actions: seq<Action>)
    ensures Run(before + actions) == Play(Run(before), actions)
    decreases |actions|
  {
    hide Act;
    if actions == [] {
      assert before + actions == before;
    } else {
      assert before + actions == (before + [actions[0]]) + actions[1..];
      assert (before + [actions[0]])[..|before + [actions[0]]| - 1] == before;
      RunThenPlay(before + [actions[0]], actions[1..]);
    }
  }

  lemma PlayFour(w: World, a: Action, b: Action, c: Action, d: Action)
    ensures Play(w, [a, b, c, d]) == Act(Act(Act(Act(w, a), b), c), d)
  {
    hide Act;
    var w1, w2, w3, w4 := Act(w, a), Act(Act(w, a), b), Act(Act(Act(w, a), b), c), Act(Act(Act(Act(w, a), b), c), d);
    assert [a, b, c, d][1..] == [b, c, d] && [b, c, d][1..] == [c, d] && [c, d][1..] == [d] && [d][1..] == [];
    assert Play(w3, [d]) == Play(w4, []);
    assert Play(w2, [c, d]) == Play(w3, [d]);
    assert Play(w1, [b, c, d]) == Play(w2, [c, d]);
  }

  lemma PlayFive(w: World, a: Action, b: Action, c: Action, d: Action, e: Action)
    ensures Play(w, [a, b, c, d, e]) == Act(Act(Act(Act(Act(w, a), b), c), d), e)
  {
    hide Act;
    PlayFour(Act(w, a), b, c, d, e);
    assert [a, b, c, d, e][1..] == [b, c, d, e];
  }

  lemma {:induction false} PlayTwice(w: World, first: seq<Action>, second: seq<Action>)
    ensures Play(w, first + second) == Play(Play(w, first), second)
    decreases |first|
  {
    hide Act;
    if first == [] {
      assert first + second == second;
    } else {
      assert (first + second)[1..] == first[1..] + second;
      PlayTwice(Act(w, first[0]), first[1..], second);
    }
  }
}
