// internal/linkedin/parse/sections.go: the indexed join of a normalized response
// and the profile field it fills.

module SectionJoin {
  import opened Domain

  // A decoded response: ordered element URNs and the included items. JSON
  // decoding of the whole response, of an item's URN and of an item's fields is
  // abstract: Malformed, urnOf and decode.
  datatype Response<R> = Malformed | Response(elements: seq<string>, included: seq<R>)

  // The item an element resolves to, the naive way: search from the end.
  function LastWith<R>(included: seq<R>, urnOf: R -> Option<string>, urn: string): Option<R> {
    if included == [] || urn == "" then None
    else if urnOf(included[|included| - 1]) == Some(urn) then Some(included[|included| - 1])
    else LastWith(included[..|included| - 1], urnOf, urn)
  }

  function Resolve<R, T>(included: seq<R>, urnOf: R -> Option<string>, decode: R -> Option<T>, urn: string): seq<T> {
    var item := LastWith(included, urnOf, urn);
    if item.Some? && decode(item.value).Some? then [decode(item.value).value] else []
  }

  // The naive join: element by element, in order, skipping what is missing or
  // does not decode.
  function Join<R, T>(elements: seq<string>, included: seq<R>, urnOf: R -> Option<string>, decode: R -> Option<T>)
    : seq<T>
  {
    if elements == [] then []
    else Join(elements[..|elements| - 1], included, urnOf, decode)
         + Resolve(included, urnOf, decode, elements[|elements| - 1])
  }

  // What a response amounts to: nothing when it cannot be decoded or joins to
  // nothing, otherwise the joined entries.
  function Entries<R, T>(resp: Response<R>, urnOf: R -> Option<string>, decode: R -> Option<T>): seq<T> {
    if resp.Malformed? then [] else Join(resp.elements, resp.included, urnOf, decode)
  }

  // The search from the end finds the last carrier of the URN, whenever there is
  // one.
  lemma {:induction false} LastWithIsLast<R>(included: seq<R>, urnOf: R -> Option<string>, urn: string)
    requires urn != ""
    ensures match LastWith(included, urnOf, urn)
            case None => forall i :: 0 <= i < |included| ==> urnOf(included[i]) != Some(urn)
            case Some(item) => exists i :: 0 <= i < |included| && included[i] == item && urnOf(item) == Some(urn)
                                 && forall j :: i < j < |included| ==> urnOf(included[j]) != Some(urn)
  {
    if included != [] && urnOf(included[|included| - 1]) != Some(urn) {
      var init := included[..|included| - 1];
      LastWithIsLast(init, urnOf, urn);
      assert forall i :: 0 <= i < |init| ==> init[i] == included[i];
    }
  }

  // The element resolves to this: it is a URN, and the last item that carries it
  // decodes to it.
  ghost predicate ResolvesTo<R, T>(included: seq<R>, urnOf: R -> Option<string>, decode: R -> Option<T>, urn: string,
                                   value: T)
  {
    urn != "" && exists i :: LastCarrier(included, urnOf, urn, i) && decode(included[i]) == Some(value)
  }

  ghost predicate LastCarrier<R>(included: seq<R>, urnOf: R -> Option<string>, urn: string, i: int) {
    && 0 <= i < |included| && urnOf(included[i]) == Some(urn)
    && forall j :: i < j < |included| ==> urnOf(included[j]) != Some(urn)
  }

  lemma OneLastCarrier<R>(included: seq<R>, urnOf: R -> Option<string>, urn: string, i: int, j: int)
    requires LastCarrier(included, urnOf, urn, i) && LastCarrier(included, urnOf, urn, j)
    ensures i == j
  {
    var at := if i < j then j else i;
    assert urnOf(included[at]) == Some(urn);
  }

  lemma ResolveIs<R, T(!new)>(included: seq<R>, urnOf: R -> Option<string>, decode: R -> Option<T>, urn: string)
    ensures var r := Resolve(included, urnOf, decode, urn);
            && |r| <= 1
            && (|r| == 1 ==> ResolvesTo(included, urnOf, decode, urn, r[0]))
            && (r == [] ==> forall v :: !ResolvesTo(included, urnOf, decode, urn, v))
  {
    if urn != "" {
      LastWithIsLast(included, urnOf, urn);
      var item := LastWith(included, urnOf, urn);
      if item.Some? {
        var i :| 0 <= i < |included| && included[i] == item.value && LastCarrier(included, urnOf, urn, i);
        forall j | LastCarrier(included, urnOf, urn, j) ensures j == i {
          OneLastCarrier(included, urnOf, urn, i, j);
        }
      }
    }
  }

  // The elements, at these positions in order, are what was joined.
  ghost predicate Picked<R, T(!new)>(elements: seq<string>, included: seq<R>, urnOf: R -> Option<string>,
                               decode: R -> Option<T>, out: seq<T>, at: seq<nat>)
  {
    && |at| == |out|
    && (forall i :: 0 <= i < |at| ==>
          at[i] < |elements| && ResolvesTo(included, urnOf, decode, elements[at[i]], out[i]))
    && (forall i, j :: 0 <= i < j < |at| ==> at[i] < at[j])
    && (forall p, v :: 0 <= p < |elements| && ResolvesTo(included, urnOf, decode, elements[p], v) ==> p in at)
  }

  // Order is kept, nothing is invented and nothing that resolves is lost: the join
  // is the values of exactly the elements that resolve, from left to right.
  lemma {:induction false} JoinIsInOrder<R, T(!new)>(elements: seq<string>, included: seq<R>,
                                                     urnOf: R -> Option<string>, decode: R -> Option<T>)
    returns (at: seq<nat>)
    ensures Picked(elements, included, urnOf, decode, Join(elements, included, urnOf, decode), at)
  {
    if elements == [] {
      at := [];
    } else {
      hide Picked, Resolve;
      var n := |elements| - 1;
      var before := JoinIsInOrder(elements[..n], included, urnOf, decode);
      PickedMore(elements, included, urnOf, decode, Join(elements[..n], included, urnOf, decode), before);
      at := if Resolve(included, urnOf, decode, elements[n]) == [] then before else before + [n];
    }
  }

  lemma PickedMore<R, T(!new)>(elements: seq<string>, included: seq<R>, urnOf: R -> Option<string>,
                               decode: R -> Option<T>, out: seq<T>, at: seq<nat>)
    requires elements != [] && Picked(elements[..|elements| - 1], included, urnOf, decode, out, at)
    ensures var n := |elements| - 1;
            var r := Resolve(included, urnOf, decode, elements[n]);
            Picked(elements, included, urnOf, decode, out + r, if r == [] then at else at + [n])
  {
    var n := |elements| - 1;
    ResolveIs(included, urnOf, decode, elements[n]);
    hide ResolvesTo, Resolve;
    var r := Resolve(included, urnOf, decode, elements[n]);
    var at' := if r == [] then at else at + [n];
    forall p, v | 0 <= p < |elements| && ResolvesTo(included, urnOf, decode, elements[p], v) ensures p in at' {
      if p < n {
        assert elements[..n][p] == elements[p];
      } else {
        assert at'[|at'| - 1] == n;
      }
    }
    forall i | 0 <= i < |at'|
      ensures at'[i] < |elements| && ResolvesTo(included, urnOf, decode, elements[at'[i]], (out + r)[i])
    {
      if i < |at| {
        assert elements[..n][at[i]] == elements[at[i]];
      }
    }
  }

  ghost predicate Indexes<R>(byURN: map<string, R>, included: seq<R>, urnOf: R -> Option<string>) {
    forall urn :: LastWith(included, urnOf, urn) == if urn in byURN then Some(byURN[urn]) else None
  }

  lemma IndexStep<R>(byURN: map<string, R>, included: seq<R>, urnOf: R -> Option<string>, i: nat)
    requires i < |included| && Indexes(byURN, included[..i], urnOf)
    ensures var urn := urnOf(included[i]);
            Indexes(if urn.Some? && urn.value != "" then byURN[urn.value := included[i]] else byURN,
                    included[..i + 1], urnOf)
  {
    var next := included[..i + 1];
    assert next[..|next| - 1] == included[..i] && next[|next| - 1] == included[i];
    assert LastWith(included[..i], urnOf, "") == None;
  }

  // The indexed join equals the naive one; the result is absent exactly when it
  // would be empty.
  method ParseSection<R, T>(resp: Response<R>, urnOf: R -> Option<string>, decode: R -> Option<T>)
    returns (entries: Option<seq<T>>, failed: bool)
    ensures failed <==> resp.Malformed?
    ensures entries == if Entries(resp, urnOf, decode) == [] then None else Some(Entries(resp, urnOf, decode))
  {
    if resp.Malformed? {
      return None, true;
    }
    var byURN: map<string, R> := map[];
    for i := 0 to |resp.included|
      invariant Indexes(byURN, resp.included[..i], urnOf)
    {
      IndexStep(byURN, resp.included, urnOf, i);
      var item := resp.included[i];
      var urn := urnOf(item);
      if urn.Some? && urn.value != "" {
        byURN := byURN[urn.value := item];
      }
    }
    assert resp.included[..|resp.included|] == resp.included;
    var out: seq<T> := [];
    for i := 0 to |resp.elements|
      invariant out == Join(resp.elements[..i], resp.included, urnOf, decode)
    {
      var next := resp.elements[..i + 1];
      assert next[..|next| - 1] == resp.elements[..i];
      var urn := resp.elements[i];
      assert LastWith(resp.included, urnOf, urn) == if urn in byURN then Some(byURN[urn]) else None;
      if urn !in byURN {
        continue;
      }
      var v := decode(byURN[urn]);
      if v.Some? {
        out := out + [v.value];
      }
    }
    assert resp.elements[..|resp.elements|] == resp.elements;
    if |out| == 0 {
      return None, false;
    }
    return Some(out), false;
  }

  // ---------------------------------------------------------------------------
  // ApplySection

  datatype Section =
    | Experience | Education | Skills | Certifications
    | Languages | Volunteer | Projects | TestScores

  function SectionNamed(name: string): Option<Section> {
    if name == "experience" then Some(Experience)
    else if name == "education" then Some(Education)
    else if name == "skills" then Some(Skills)
    else if name == "certifications" then Some(Certifications)
    else if name == "languages" then Some(Languages)
    else if name == "volunteer" then Some(Volunteer)
    else if name == "projects" then Some(Projects)
    else if name == "test_scores" then Some(TestScores)
    else None
  }

  // LinkedIn's names of the sections.
  lemma SectionNames(name: string)
    ensures SectionNamed("experience") == Some(Experience) && SectionNamed("education") == Some(Education)
    ensures SectionNamed("skills") == Some(Skills) && SectionNamed("certifications") == Some(Certifications)
    ensures SectionNamed("languages") == Some(Languages) && SectionNamed("volunteer") == Some(Volunteer)
    ensures SectionNamed("projects") == Some(Projects) && SectionNamed("test_scores") == Some(TestScores)
    ensures SectionNamed(name).Some? ==>
              name in {"experience", "education", "skills", "certifications", "languages", "volunteer", "projects",
                       "test_scores"}
  {
  }

  // The fields of a profile after a response for one section was applied: the
  // section's field holds exactly the entries, or is absent when there are none.
  function Applied<E>(fields: map<Section, seq<E>>, section: Section, entries: seq<E>): map<Section, seq<E>> {
    if entries == [] then fields - {section} else fields[section := entries]
  }

  // A profile: the core part, and the section fields that are not absent.
  class Profile<C, E> {
    const core: C
    var fields: map<Section, seq<E>>

    constructor (core: C)
      ensures this.core == core && fields == map[]
    {
      this.core := core;
      fields := map[];
    }

    // Only the field of the named section changes; the count is the length of
    // what it now holds. An unknown name changes nothing.
    method ApplySection<R>(name: string, resp: Response<R>, urnOf: R -> Option<string>,
                           decode: Section -> R -> Option<E>)
      returns (count: nat, failed: bool)
      modifies this
      ensures SectionNamed(name).None? ==> fields == old(fields) && count == 0 && !failed
      ensures SectionNamed(name).Some? ==>
                var s := SectionNamed(name).value;
                var entries := Entries(resp, urnOf, decode(s));
                && fields == Applied(old(fields), s, entries)
                && count == |entries|
                && (count > 0 <==> s in fields)
                && failed == resp.Malformed?
    {
      var s := SectionNamed(name);
      if s.None? {
        return 0, false;
      }
      var v;
      v, failed := ParseSection(resp, urnOf, decode(s.value));
      if v.None? {
        fields := fields - {s.value};
        return 0, failed;
      }
      fields := fields[s.value := v.value];
      count := |v.value|;
    }
  }
}
