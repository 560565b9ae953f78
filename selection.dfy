/**
 * The document-selection toggle shared by the chat page
 * (`toggleDocumentSelection`), the quiz generator and the study planner
 * (`toggleDocument`): a selected id is filtered out, an unselected one is
 * appended at the end.
 */
module Selection {
  import opened Lists

  /** A document id (`doc._id`). */
  type Id = string

  /** `prev.includes(id) ? prev.filter(x => x !== id) : [...prev, id]` */
  function Toggle(selected: seq<Id>, id: Id): (r: seq<Id>)
    ensures id in r <==> id !in selected
    ensures forall y :: y != id ==> (y in r <==> y in selected)
    ensures id !in selected ==> r == selected + [id]
    ensures id in selected ==> |r| < |selected|
  {
    if id in selected then
      WithoutMembership(selected, id);
      WithoutShrinks(selected, id);
      Without(selected, id)
    else selected + [id]
  }

  lemma {:induction false} WithoutMembership(s: seq<Id>, x: Id)
    ensures forall y :: y != x ==> (y in Without(s, x) <==> y in s)
  {
    if s != [] {
      WithoutMembership(s[1..], x);
      assert s == [s[0]] + s[1..];
    }
  }

  lemma {:induction false} WithoutShrinks(s: seq<Id>, x: Id)
    requires x in s
    ensures |Without(s, x)| < |s|
  {
    if s[0] != x {
      WithoutShrinks(s[1..], x);
    }
  }

  /** Deselecting removes every copy of the id and keeps the other ids, in order and with their multiplicities. */
  lemma TogglePresent(selected: seq<Id>, id: Id)
    requires id in selected
    ensures IsSubsequence(Toggle(selected, id), selected)
    ensures multiset(Toggle(selected, id)) == multiset(selected)[id := 0]
  {
    WithoutIsSubsequence(selected, id);
    WithoutMultiset(selected, id);
  }

  /** Toggling an unselected id twice gives back the original selection. */
  lemma ToggleTwiceAbsent(selected: seq<Id>, id: Id)
    requires id !in selected
    ensures Toggle(Toggle(selected, id), id) == selected
  {
    WithoutAppended(selected, id);
    WithoutAbsent(selected, id);
  }

  /** Toggling a selected id twice moves it to the end (and drops its duplicates). */
  lemma ToggleTwicePresent(selected: seq<Id>, id: Id)
    requires id in selected
    ensures Toggle(Toggle(selected, id), id) == Without(selected, id) + [id]
  {
  }

  /** A selection without repeated ids keeps that property under toggling. */
  lemma ToggleKeepsNoDuplicates(selected: seq<Id>, id: Id)
    requires NoDuplicates(selected)
    ensures NoDuplicates(Toggle(selected, id))
  {
    if id in selected {
      WithoutNoDuplicates(selected, id);
    }
  }

  lemma {:induction false} WithoutNoDuplicates(s: seq<Id>, x: Id)
    requires NoDuplicates(s)
    ensures NoDuplicates(Without(s, x))
  {
    if s != [] {
      assert NoDuplicates(s[1..]) by {
        forall i, j | 0 <= i < j < |s[1..]| ensures s[1..][i] != s[1..][j] {
          assert s[1..][i] == s[i + 1] && s[1..][j] == s[j + 1];
        }
      }
      WithoutNoDuplicates(s[1..], x);
      if s[0] != x {
        WithoutMembership(s[1..], x);
        assert s[0] !in s[1..] by {
          forall k | 0 <= k < |s[1..]| ensures s[1..][k] != s[0] {
            assert s[1..][k] == s[k + 1];
          }
        }
        var r := [s[0]] + Without(s[1..], x);
        forall i, j | 0 <= i < j < |r| ensures r[i] != r[j] {
          if i == 0 {
            assert r[j] in Without(s[1..], x);
          } else {
            assert r[i] == Without(s[1..], x)[i - 1] && r[j] == Without(s[1..], x)[j - 1];
          }
        }
      }
    }
  }
}
