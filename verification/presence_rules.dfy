/** The two presence rules the serverless hooks import from `validators`:
    `exactly_one` and `mutually_exclusive`. Their bodies are not part of this
    model; they are defined by their use, as counts of how many of the listed
    keys are present in the property map. */
module PresenceRules {
  import opened Outcomes
  import opened PyValues

  datatype PresenceError =
    | NotExactlyOne(cls: string, keys: seq<string>)
    | NotMutuallyExclusive(cls: string, keys: seq<string>)

  /** How many of the listed keys are present (a list count, so a key listed
      twice counts twice). */
  function PresentCount(p: Properties, keys: seq<string>): (n: nat)
    ensures n <= |keys|
    ensures n == 0 <==> forall i :: 0 <= i < |keys| ==> keys[i] !in p
  {
    if keys == [] then 0
    else
      var rest := PresentCount(p, keys[1..]);
      assert rest == 0 <==> forall i :: 1 <= i < |keys| ==> keys[i] !in p by {
        assert forall i :: 1 <= i < |keys| ==> keys[i] == keys[1..][i - 1];
      }
      (if keys[0] in p then 1 else 0) + rest
  }

  /** `exactly_one(cls, properties, keys)`: passes exactly when one listed
      position alone is present. */
  function ExactlyOne(cls: string, p: Properties, keys: seq<string>): (r: Outcome<PresenceError>)
    ensures r == Pass <==> exists i :: 0 <= i < |keys| && OnlyPresent(p, keys, i)
    ensures r.Fail? ==> r.error == NotExactlyOne(cls, keys)
  {
    ExactlyOneIff(p, keys);
    if PresentCount(p, keys) != 1 then Fail(NotExactlyOne(cls, keys)) else Pass
  }

  /** `mutually_exclusive(cls, properties, keys)`: fails exactly when two
      listed keys are present. */
  function MutuallyExclusive(cls: string, p: Properties, keys: seq<string>): (r: Outcome<PresenceError>)
    ensures r.Fail? <==> TwoPresent(p, keys)
    ensures r.Fail? ==> r.error == NotMutuallyExclusive(cls, keys)
  {
    AtMostOneIff(p, keys);
    if PresentCount(p, keys) > 1 then Fail(NotMutuallyExclusive(cls, keys)) else Pass
  }

  predicate TwoPresent(p: Properties, keys: seq<string>)
  {
    exists i, j :: 0 <= i < j < |keys| && keys[i] in p && keys[j] in p
  }

  predicate OnlyPresent(p: Properties, keys: seq<string>, i: int)
    requires 0 <= i < |keys|
  {
    keys[i] in p && forall j :: 0 <= j < |keys| && j != i ==> keys[j] !in p
  }

  /** At most one key present is the same as: no two listed positions are
      both present. */
  lemma {:induction false} AtMostOneIff(p: Properties, keys: seq<string>)
    ensures PresentCount(p, keys) <= 1 <==> !TwoPresent(p, keys)
  {
    if keys != [] {
      var tail := keys[1..];
      AtMostOneIff(p, tail);
      if TwoPresent(p, tail) {
        var i, j :| 0 <= i < j < |tail| && tail[i] in p && tail[j] in p;
        assert keys[i + 1] in p && keys[j + 1] in p;
      }
      if keys[0] in p && PresentCount(p, tail) > 0 {
        var j :| 0 <= j < |tail| && tail[j] in p;
        assert keys[j + 1] in p;
      }
      if TwoPresent(p, keys) {
        var i, j :| 0 <= i < j < |keys| && keys[i] in p && keys[j] in p;
        assert tail[j - 1] in p;
        if i > 0 {
          assert tail[i - 1] in p;
          assert TwoPresent(p, tail);
        }
      }
    }
  }

  /** Exactly one key present is the same as: some listed position is present
      and every other position is absent. */
  lemma {:induction false} ExactlyOneIff(p: Properties, keys: seq<string>)
    ensures PresentCount(p, keys) == 1 <==> exists i :: 0 <= i < |keys| && OnlyPresent(p, keys, i)
  {
    if keys != [] {
      var tail := keys[1..];
      ExactlyOneIff(p, tail);
      if PresentCount(p, keys) == 1 {
        if keys[0] in p {
          assert OnlyPresent(p, keys, 0) by {
            forall j | 0 < j < |keys| ensures keys[j] !in p {
              assert keys[j] == tail[j - 1];
            }
          }
        } else {
          var i :| 0 <= i < |tail| && OnlyPresent(p, tail, i);
          assert OnlyPresent(p, keys, i + 1) by {
            forall j | 0 < j < |keys| && j != i + 1 ensures keys[j] !in p {
              assert keys[j] == tail[j - 1];
            }
          }
        }
      }
      if exists i :: 0 <= i < |keys| && OnlyPresent(p, keys, i) {
        var i :| 0 <= i < |keys| && OnlyPresent(p, keys, i);
        if i == 0 {
          assert forall j :: 0 <= j < |tail| ==> tail[j] == keys[j + 1];
        } else {
          assert OnlyPresent(p, tail, i - 1) by {
            forall j | 0 <= j < |tail| && j != i - 1 ensures tail[j] !in p {
              assert tail[j] == keys[j + 1];
            }
          }
        }
      }
    }
  }
}
