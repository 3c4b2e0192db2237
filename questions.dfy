/**
 * The shared question script (the `questions.json` record): an ordered list
 * of `(question_id, question_text)` records, maintained by `add_question`
 * and `delete_question`.
 */
module Questions {

  /** One record of the script. */
  datatype Question = Question(id: int, text: string)

  /** Ids strictly increase along the script: the shape add and delete maintain. */
  predicate StrictlyIncreasing(qs: seq<Question>)
  {
    forall i, j :: 0 <= i < j < |qs| ==> qs[i].id < qs[j].id
  }

  /** Some record of the script carries `id`. */
  predicate HasId(qs: seq<Question>, id: int)
  {
    exists i :: 0 <= i < |qs| && qs[i].id == id
  }

  /** The largest id in a non-empty script. */
  function MaxId(qs: seq<Question>): (m: int)
    requires qs != []
    ensures forall i :: 0 <= i < |qs| ==> qs[i].id <= m
    ensures HasId(qs, m)
  {
    if |qs| == 1 then qs[0].id
    else
      var m' := MaxId(qs[..|qs| - 1]);
      assert forall i :: 0 <= i < |qs| - 1 ==> qs[..|qs| - 1][i] == qs[i];
      if qs[|qs| - 1].id > m' then qs[|qs| - 1].id else m'
  }

  /** On a script with strictly increasing ids, every id is below the last one plus one. */
  lemma AddedFreshId(qs: seq<Question>)
    ensures StrictlyIncreasing(qs) && qs != [] ==> forall i :: 0 <= i < |qs| ==> qs[i].id <= qs[|qs| - 1].id
  {
    if StrictlyIncreasing(qs) && qs != [] {
      forall i | 0 <= i < |qs|
        ensures qs[i].id <= qs[|qs| - 1].id
      {
        assert i == |qs| - 1 || qs[i].id < qs[|qs| - 1].id;
      }
    }
  }

  /** The id `add_question` gives a new record: the LAST record's id plus one, or 1 on an empty script. */
  function NextId(qs: seq<Question>): (id: int)
    ensures StrictlyIncreasing(qs) ==> forall i :: 0 <= i < |qs| ==> qs[i].id < id
    ensures StrictlyIncreasing(qs) ==> !HasId(qs, id)
  {
    AddedFreshId(qs);
    if qs == [] then 1 else qs[|qs| - 1].id + 1
  }

  /** The script after `add_question(text)`. */
  function Added(qs: seq<Question>, text: string): (r: seq<Question>)
    ensures |r| == |qs| + 1 && r[..|qs|] == qs
    ensures StrictlyIncreasing(qs) ==> !HasId(qs, r[|qs|].id)
    ensures r[|qs|] == Question(NextId(qs), text)
    ensures StrictlyIncreasing(qs) ==> StrictlyIncreasing(r)
  {
    AddedFreshId(qs);
    qs + [Question(NextId(qs), text)]
  }

  /** The script after `delete_question(id)`: the records whose id differs from `id`, in order. */
  function Deleted(qs: seq<Question>, id: int): (r: seq<Question>)
    ensures |r| <= |qs|
    ensures forall q {:trigger q in r} :: q in r <==> q in qs && q.id != id
    ensures !HasId(qs, id) ==> r == qs
  {
    if qs == [] then []
    else
      var init := qs[..|qs| - 1];
      var last := qs[|qs| - 1];
      assert qs == init + [last];
      assert !HasId(qs, id) ==> !HasId(init, id) && last.id != id by {
        if HasId(init, id) {
          var i :| 0 <= i < |init| && init[i].id == id;
          assert qs[i].id == id;
        }
        if last.id == id {
          assert qs[|qs| - 1].id == id;
        }
      }
      if last.id == id then Deleted(init, id) else Deleted(init, id) + [last]
  }

  /**
   * Adding a question to a script with strictly increasing ids keeps them
   * strictly increasing; the new id is fresh, is 1 on an empty script and
   * is the largest existing id plus one otherwise.
   */
  lemma AddedKeepsIncreasing(qs: seq<Question>, text: string)
    requires StrictlyIncreasing(qs)
    ensures StrictlyIncreasing(Added(qs, text))
    ensures !HasId(qs, NextId(qs))
    ensures qs == [] ==> NextId(qs) == 1
    ensures qs != [] ==> NextId(qs) == MaxId(qs) + 1
  {
    var r := Added(qs, text);
    var n := NextId(qs);
    forall i | 0 <= i < |qs|
      ensures qs[i].id < n
    {
      assert i == |qs| - 1 || qs[i].id < qs[|qs| - 1].id;
    }
    forall i, j | 0 <= i < j < |r|
      ensures r[i].id < r[j].id
    {
      assert r[i] == qs[i];
      if j < |qs| {
        assert r[j] == qs[j];
      } else {
        assert r[j].id == n;
      }
    }
    if qs != [] {
      var k :| 0 <= k < |qs| && qs[k].id == MaxId(qs);
      assert qs[|qs| - 1].id <= MaxId(qs);
    }
  }

  /**
   * Deleting keeps ids strictly increasing.
   */
  lemma {:induction false} DeletedKeepsIncreasing(qs: seq<Question>, id: int)
    requires StrictlyIncreasing(qs)
    ensures StrictlyIncreasing(Deleted(qs, id))
  {
    if qs != [] {
      var init := qs[..|qs| - 1];
      var last := qs[|qs| - 1];
      assert StrictlyIncreasing(init) by {
        forall i, j | 0 <= i < j < |init| ensures init[i].id < init[j].id {
          assert init[i] == qs[i] && init[j] == qs[j];
        }
      }
      DeletedKeepsIncreasing(init, id);
      var r := Deleted(init, id);
      if last.id != id {
        forall i | 0 <= i < |r| ensures r[i].id < last.id {
          assert r[i] in r;
          assert r[i] in init;
          var k :| 0 <= k < |init| && init[k] == r[i];
          assert qs[k] == r[i];
        }
        assert StrictlyIncreasing(r + [last]) by {
          forall i, j | 0 <= i < j < |r + [last]| ensures (r + [last])[i].id < (r + [last])[j].id {
            if j < |r| {
              assert (r + [last])[i] == r[i] && (r + [last])[j] == r[j];
            } else {
              assert (r + [last])[i] == r[i];
            }
          }
        }
      }
    }
  }

  /** Appending a record to the script appends it to the result exactly when its id differs. */
  lemma DeletedSnoc(init: seq<Question>, last: Question, id: int)
    ensures Deleted(init + [last], id) == if last.id == id then Deleted(init, id) else Deleted(init, id) + [last]
  {
    var qs := init + [last];
    assert qs[..|qs| - 1] == init;
    assert qs[|qs| - 1] == last;
  }

  /** A single record is kept exactly when its id differs from `id`. */
  lemma DeletedSingle(q: Question, id: int)
    ensures Deleted([q], id) == if q.id == id then [] else [q]
  {
    assert [q][..0] == [];
  }

  /**
   * `Deleted` is the order-keeping filter: it distributes over
   * concatenation, so with `DeletedSingle` it keeps every record whose id
   * differs from `id`, once each, in script order.
   */
  lemma {:induction false} DeletedDistributes(a: seq<Question>, b: seq<Question>, id: int)
    ensures Deleted(a + b, id) == Deleted(a, id) + Deleted(b, id)
  {
    if b == [] {
      assert a + b == a;
    } else {
      var b' := b[..|b| - 1];
      var last := b[|b| - 1];
      assert b == b' + [last];
      assert a + b == (a + b') + [last];
      DeletedSnoc(a + b', last, id);
      DeletedSnoc(b', last, id);
      DeletedDistributes(a, b', id);
    }
  }

  /** `delete_question`'s loop: copy every record whose id differs from `id`. */
  method DeleteFrom(qs: seq<Question>, id: int) returns (kept: seq<Question>)
    ensures kept == Deleted(qs, id)
  {
    kept := [];
    var i := 0;
    while i < |qs|
      invariant 0 <= i <= |qs|
      invariant kept == Deleted(qs[..i], id)
    {
      assert qs[..i + 1][..i] == qs[..i];
      if qs[i].id != id {
        kept := kept + [qs[i]];
      }
      i := i + 1;
    }
    assert qs[..|qs|] == qs;
  }

  /**
   * On a script whose ids are NOT sorted, "last id + 1" can collide with an
   * existing id, unlike "largest id + 1"; add and delete never produce such
   * a script from an empty one.
   */
  lemma LastPlusOneOnUnsortedScript()
    ensures var qs := [Question(1, "a"), Question(3, "b"), Question(2, "c")];
      NextId(qs) == 3 && HasId(qs, 3) && MaxId(qs) + 1 == 4
  {
    var qs := [Question(1, "a"), Question(3, "b"), Question(2, "c")];
    assert qs[1].id == 3;
  }
}
