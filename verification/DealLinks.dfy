// Links between a deal and its contacts, and the five places that write them.
// Every writer keeps: no contact is linked twice, at most one link is primary.
module DealLinks {
  import opened Prelude

  type Id = nat

  datatype Link = Link(contact: Id, primary: bool)

  ghost predicate NoRepeats(links: seq<Link>) {
    forall i, j :: 0 <= i < j < |links| ==> links[i].contact != links[j].contact
  }

  ghost predicate AtMostOnePrimary(links: seq<Link>) {
    forall i, j :: 0 <= i < j < |links| ==> !(links[i].primary && links[j].primary)
  }

  ghost predicate Consistent(links: seq<Link>) {
    NoRepeats(links) && AtMostOnePrimary(links)
  }

  predicate HasPrimary(links: seq<Link>) {
    exists l :: l in links && l.primary
  }

  predicate Linked(links: seq<Link>, contact: Id) {
    exists l :: l in links && l.contact == contact
  }

  // ----- order-preserving removal of repeats (dict.fromkeys) -----

  function Unique(ids: seq<Id>): seq<Id> {
    if ids == [] then []
    else
      var rest := Unique(ids[..|ids| - 1]);
      if ids[|ids| - 1] in rest then rest else rest + [ids[|ids| - 1]]
  }

  lemma {:induction false} UniqueFacts(ids: seq<Id>)
    ensures Distinct(Unique(ids))
    ensures forall x :: x in Unique(ids) <==> x in ids
    ensures ids != [] ==> Unique(ids) != [] && Unique(ids)[0] == ids[0]
  {
    if ids != [] {
      var front := ids[..|ids| - 1];
      UniqueFacts(front);
      assert ids == front + [ids[|ids| - 1]];
      if front != [] {
        assert front[0] == ids[0];
      }
    }
  }

  // ----- fresh links: the first is primary unless another primary survives -----

  function Fresh(contacts: seq<Id>, primaryTaken: bool): seq<Link> {
    seq(|contacts|, i requires 0 <= i < |contacts| => Link(contacts[i], i == 0 && !primaryTaken))
  }

  // create_deal
  function Created(contacts: seq<Id>): seq<Link> {
    Fresh(Unique(contacts), false)
  }

  // update_deal: the links that survive the delete. An administrator deletes all
  // of them, an employee only those to contacts visible to that employee.
  function Surviving(links: seq<Link>, visible: Option<set<Id>>): seq<Link> {
    if links == [] then []
    else
      var rest := Surviving(links[1..], visible);
      if visible.None? || links[0].contact in visible.value then rest else [links[0]] + rest
  }

  // A contact whose link the delete leaves alone.
  predicate Hidden(visible: Option<set<Id>>, c: Id) {
    visible.Some? && c !in visible.value
  }

  // The unique key (deal, contact) rejects the whole replacement when a new link
  // repeats a surviving one.
  function Replaced(links: seq<Link>, contacts: seq<Id>, visible: Option<set<Id>>): Option<seq<Link>> {
    var kept := Surviving(links, visible);
    if exists c :: c in contacts && Linked(kept, c) then None
    else Some(kept + Fresh(Unique(contacts), HasPrimary(kept)))
  }

  lemma {:induction false} SurvivingFacts(links: seq<Link>, visible: Option<set<Id>>)
    ensures Consistent(links) ==> Consistent(Surviving(links, visible))
    ensures forall l :: l in Surviving(links, visible)
              <==> l in links && visible.Some? && l.contact !in visible.value
  {
    if links != [] {
      SurvivingFacts(links[1..], visible);
      assert links == [links[0]] + links[1..];
      forall l | l in links[1..] ensures Consistent(links) ==> l.contact != links[0].contact && !(l.primary && links[0].primary) {
        var j :| 0 <= j < |links[1..]| && links[1..][j] == l;
        assert links[j + 1] == l;
      }
    }
  }

  lemma CreatedConsistent(contacts: seq<Id>)
    ensures Consistent(Created(contacts))
    ensures forall c :: Linked(Created(contacts), c) <==> c in contacts
    ensures HasPrimary(Created(contacts)) <==> contacts != []
  {
    UniqueFacts(contacts);
    FreshLinked(Unique(contacts), false);
    if contacts != [] {
      assert Created(contacts)[0].primary;
    }
  }

  lemma FreshLinked(contacts: seq<Id>, primaryTaken: bool)
    ensures forall c :: Linked(Fresh(contacts, primaryTaken), c) <==> c in contacts
  {
    forall c | c in contacts ensures Linked(Fresh(contacts, primaryTaken), c) {
      var i :| 0 <= i < |contacts| && contacts[i] == c;
      assert Fresh(contacts, primaryTaken)[i].contact == c;
    }
  }

  // A replacement that goes through keeps the links consistent, links exactly
  // the new contacts and the hidden ones, and has a primary link whenever it
  // names a contact.
  lemma ReplacedConsistent(links: seq<Link>, contacts: seq<Id>, visible: Option<set<Id>>)
    requires Consistent(links)
    ensures Replaced(links, contacts, visible).Some? ==>
      var after := Replaced(links, contacts, visible).value;
      && Consistent(after)
      && (contacts != [] ==> HasPrimary(after))
      && (forall c :: Linked(after, c) <==> c in contacts || (Hidden(visible, c) && Linked(links, c)))
      && (forall l :: l in links && Hidden(visible, l.contact) ==> l in after)
      && (contacts != [] && (forall l :: l in links && Hidden(visible, l.contact) ==> !l.primary) ==> Link(contacts[0], true) in after)
  {
    var kept := Surviving(links, visible);
    SurvivingFacts(links, visible);
    UniqueFacts(contacts);
    if Replaced(links, contacts, visible).Some? {
      var added := Fresh(Unique(contacts), HasPrimary(kept));
      var after := kept + added;
      FreshLinked(Unique(contacts), HasPrimary(kept));
      forall i, j | 0 <= i < j < |after| ensures after[i].contact != after[j].contact && !(after[i].primary && after[j].primary) {
        if i < |kept| && j >= |kept| {
          assert after[i] in kept && after[j] in added;
          assert added[j - |kept|].contact in contacts;
        }
      }
      forall l | l in kept ensures l in after {
      }
      if contacts != [] {
        assert added[0].contact == contacts[0] && added[0] in after;
      }
      forall c ensures Linked(after, c) <==> Linked(kept, c) || Linked(added, c) {
        LinkedConcat(kept, added, c);
      }
    }
  }

  lemma LinkedConcat(left: seq<Link>, right: seq<Link>, c: Id)
    ensures Linked(left + right, c) <==> Linked(left, c) || Linked(right, c)
  {
    if Linked(left, c) {
      var l :| l in left && l.contact == c;
      assert l in left + right;
    }
    if Linked(right, c) {
      var l :| l in right && l.contact == c;
      assert l in left + right;
    }
  }

  // The key refuses the rows exactly when a requested contact is linked and
  // hidden from the delete.
  lemma KeyRefusesIff(links: seq<Link>, contacts: seq<Id>, visible: Option<set<Id>>)
    ensures Replaced(links, contacts, visible).None? <==> exists c :: c in contacts && Linked(links, c) && Hidden(visible, c)
  {
    SurvivingFacts(links, visible);
    var kept := Surviving(links, visible);
    forall c ensures Linked(kept, c) <==> Linked(links, c) && Hidden(visible, c) {
      if Linked(links, c) && Hidden(visible, c) {
        var l :| l in links && l.contact == c;
        assert l in kept;
      }
    }
  }

  // The contacts of an update request. The check at its start and the delete
  // read the contacts separately, without a lock on them: checked are those that
  // the check finds live and accessible, visible those that the delete may touch.
  datatype Update = Done(links: seq<Link>) | NotFound | KeyClash

  function Updated(links: seq<Link>, contacts: seq<Id>, checked: set<Id>, visible: Option<set<Id>>): Update {
    if exists c :: c in contacts && c !in checked then NotFound
    else
      match Replaced(links, contacts, visible)
      case None => KeyClash
      case Some(after) => Done(after)
  }

  // Exactly when the request is refused, and how.
  lemma UpdateRefusedIff(links: seq<Link>, contacts: seq<Id>, checked: set<Id>, visible: Option<set<Id>>)
    ensures Updated(links, contacts, checked, visible) == NotFound <==> exists c :: c in contacts && c !in checked
    ensures Updated(links, contacts, checked, visible) == KeyClash
       <==> (forall c :: c in contacts ==> c in checked) && exists c :: c in contacts && Linked(links, c) && Hidden(visible, c)
  {
    KeyRefusesIff(links, contacts, visible);
  }

  // An administrator, and an employee whose contacts do not change between the
  // check and the delete, never run into the key.
  lemma OneSnapshotNeverClashes(links: seq<Link>, contacts: seq<Id>, checked: set<Id>, visible: Option<set<Id>>)
    requires visible.None? || visible == Some(checked)
    ensures Updated(links, contacts, checked, visible) != KeyClash
  {
    UpdateRefusedIff(links, contacts, checked, visible);
  }

  // A linked contact that is reassigned or deleted between the two reads.
  lemma ReassignedMeanwhile()
    ensures Updated([Link(1, true)], [1], {1}, Some({})) == KeyClash
  {
    var links := [Link(1, true)];
    assert Linked(links, 1) by {
      assert Link(1, true) in links;
    }
    UpdateRefusedIff(links, [1], {1}, Some({}));
  }

  // ----- subscription import: append missing contacts (_add_deal_contacts) -----

  function Added(links: seq<Link>, contacts: seq<Id>): seq<Link> {
    if contacts == [] then links
    else
      var before := Added(links, contacts[..|contacts| - 1]);
      var c := contacts[|contacts| - 1];
      if Linked(links, c) then before else before + [Link(c, !HasPrimary(before))]
  }

  // The caller passes each contact once (_unique_contacts).
  lemma {:induction false} AddedConsistent(links: seq<Link>, contacts: seq<Id>)
    requires Consistent(links) && Distinct(contacts)
    ensures Consistent(Added(links, contacts))
    ensures links <= Added(links, contacts)
    ensures forall c :: Linked(Added(links, contacts), c) <==> Linked(links, c) || c in contacts
    ensures Added(links, contacts) != links ==> HasPrimary(Added(links, contacts))
    ensures var after := Added(links, contacts);
      forall i :: |links| <= i < |after| ==> (after[i].primary <==> i == |links| && !HasPrimary(links))
  {
    if contacts != [] {
      var front, c := contacts[..|contacts| - 1], contacts[|contacts| - 1];
      AddedConsistent(links, front);
      var before := Added(links, front);
      assert contacts == front + [c];
      if !Linked(links, c) {
        var after := before + [Link(c, !HasPrimary(before))];
        forall d { LinkedConcat(before, [Link(c, !HasPrimary(before))], d); }
        assert !Linked(before, c);
        forall i | 0 <= i < |before| ensures before[i].contact != c && (before[i].primary ==> HasPrimary(before)) {
          assert before[i] in before;
        }
        if HasPrimary(before) {
          var l :| l in before && l.primary;
          assert l in after;
        } else {
          assert after[|before|].primary && after[|before|] in after;
        }
      }
    }
  }

  // ----- amoCRM synchronization (_sync_deal_contacts) -----

  datatype Mapped = Mapped(contact: Id, main: bool)

  // First pass: link every mapped contact that is not linked yet, not primary.
  function Linking(links: seq<Link>, mapped: seq<Mapped>): seq<Link> {
    if mapped == [] then links
    else
      var before := Linking(links, mapped[..|mapped| - 1]);
      var c := mapped[|mapped| - 1].contact;
      if Linked(before, c) then before else before + [Link(c, false)]
  }

  // The contact marked as main, or the first one.
  function Chosen(mapped: seq<Mapped>): Id
    requires mapped != []
  {
    FirstMain(mapped, mapped[0].contact)
  }

  function FirstMain(mapped: seq<Mapped>, default: Id): Id {
    if mapped == [] then default
    else if mapped[0].main then mapped[0].contact
    else FirstMain(mapped[1..], default)
  }

  function Crowned(links: seq<Link>, chosen: Id): seq<Link> {
    seq(|links|, i requires 0 <= i < |links| => Link(links[i].contact, links[i].contact == chosen))
  }

  function Synced(links: seq<Link>, mapped: seq<Mapped>): seq<Link> {
    if mapped == [] then links else Crowned(Linking(links, mapped), Chosen(mapped))
  }

  lemma {:induction false} LinkingFacts(links: seq<Link>, mapped: seq<Mapped>)
    requires NoRepeats(links)
    ensures NoRepeats(Linking(links, mapped))
    ensures forall c :: Linked(Linking(links, mapped), c) <==>
              Linked(links, c) || exists m :: m in mapped && m.contact == c
  {
    if mapped != [] {
      var front, m := mapped[..|mapped| - 1], mapped[|mapped| - 1];
      LinkingFacts(links, front);
      var before := Linking(links, front);
      assert mapped == front + [m];
      if !Linked(before, m.contact) {
        forall d { LinkedConcat(before, [Link(m.contact, false)], d); }
        assert Linked([Link(m.contact, false)], m.contact) by {
          assert Link(m.contact, false) in [Link(m.contact, false)];
        }
        forall i | 0 <= i < |before| ensures before[i].contact != m.contact {
          assert before[i] in before;
        }
      }
    }
  }

  lemma {:induction false} FirstMainMember(mapped: seq<Mapped>, default: Id)
    ensures FirstMain(mapped, default) == default
         || exists m :: m in mapped && m.main && m.contact == FirstMain(mapped, default)
    ensures (exists m :: m in mapped && m.main)
         ==> exists m :: m in mapped && m.main && m.contact == FirstMain(mapped, default)
  {
    if mapped != [] {
      assert mapped[0] in mapped;
      FirstMainMember(mapped[1..], default);
    }
  }

  // The first contact marked as main stands at position i.
  ghost predicate MainAt(mapped: seq<Mapped>, i: int) {
    0 <= i < |mapped| && mapped[i].main && forall j :: 0 <= j < i ==> !mapped[j].main
  }

  // The contact that is to be primary: the first one marked as main, or the
  // first one if none is.
  ghost predicate ToBePrimary(mapped: seq<Mapped>, c: Id) {
    || (exists i :: MainAt(mapped, i) && mapped[i].contact == c)
    || (mapped != [] && (forall i :: 0 <= i < |mapped| ==> !mapped[i].main) && mapped[0].contact == c)
  }

  lemma {:induction false} FirstMainAt(mapped: seq<Mapped>, default: Id)
    ensures if exists i :: 0 <= i < |mapped| && mapped[i].main
            then exists i :: MainAt(mapped, i) && mapped[i].contact == FirstMain(mapped, default)
            else FirstMain(mapped, default) == default
  {
    if mapped != [] && !mapped[0].main {
      FirstMainAt(mapped[1..], default);
      if i :| 0 <= i < |mapped| && mapped[i].main {
        assert mapped[1..][i - 1].main;
        var j :| MainAt(mapped[1..], j) && mapped[1..][j].contact == FirstMain(mapped[1..], default);
        assert forall k :: 0 < k <= j ==> mapped[k] == mapped[1..][k - 1];
        assert MainAt(mapped, j + 1);
      }
    } else if mapped != [] {
      assert MainAt(mapped, 0);
    }
  }

  lemma ChosenIsPrimary(mapped: seq<Mapped>, c: Id)
    requires mapped != []
    ensures Chosen(mapped) == c <==> ToBePrimary(mapped, c)
  {
    FirstMainAt(mapped, mapped[0].contact);
    forall i, j | MainAt(mapped, i) && MainAt(mapped, j) ensures i == j {
    }
  }

  // Whatever the links were before (even with several primaries), a
  // synchronization that maps a contact leaves exactly one primary link: the
  // first contact marked as main has it, or the first one if none is marked.
  lemma SyncedConsistent(links: seq<Link>, mapped: seq<Mapped>)
    requires NoRepeats(links)
    ensures mapped != [] ==>
      && Consistent(Synced(links, mapped))
      && HasPrimary(Synced(links, mapped))
      && forall c :: Linked(Synced(links, mapped), c) <==>
           Linked(links, c) || exists m :: m in mapped && m.contact == c
    ensures mapped != [] ==> forall l :: l in Synced(links, mapped) ==> (l.primary <==> ToBePrimary(mapped, l.contact))
    ensures mapped == [] ==> Synced(links, mapped) == links
  {
    if mapped != [] {
      forall c { ChosenIsPrimary(mapped, c); }
      LinkingFacts(links, mapped);
      var before, chosen := Linking(links, mapped), Chosen(mapped);
      var after := Crowned(before, chosen);
      FirstMainMember(mapped, mapped[0].contact);
      assert mapped[0] in mapped;
      assert Linked(before, chosen);
      var l :| l in before && l.contact == chosen;
      var i :| 0 <= i < |before| && before[i] == l;
      assert after[i] in after && after[i].primary;
      forall c ensures Linked(after, c) <==> Linked(before, c) {
        if Linked(before, c) {
          var k :| k in before && k.contact == c;
          var j :| 0 <= j < |before| && before[j] == k;
          assert after[j] in after;
        }
        if Linked(after, c) {
          var k :| k in after && k.contact == c;
          var j :| 0 <= j < |after| && after[j] == k;
          assert before[j] in before;
        }
      }
    }
  }

  // ----- the rows of one deal, as the program changes them -----

  class Deal {
    var links: seq<Link>

    // Every given contact is linked, the first one as primary.
    constructor Create(contacts: seq<Id>)
      ensures Consistent(links)
      ensures forall c :: Linked(links, c) <==> c in contacts
      ensures contacts != [] ==> links != [] && links[0] == Link(contacts[0], true)
    {
      links := [];
      new;
      CreatedConsistent(contacts);
      UniqueFacts(contacts);
      AddFresh(contacts, false);
      assert links == Created(contacts);
    }

    // A deal opened by inbound routing: its contact, if known, is primary.
    constructor FromInbound(contact: Option<Id>)
      ensures Consistent(links)
      ensures forall l :: l in links <==> l.primary && contact == Some(l.contact)
    {
      links := [];
      new;
      if contact.Some? {
        links := links + [Link(contact.value, true)];
      }
    }

    // Rows for the distinct contacts, in order; the first is primary unless taken.
    method AddFresh(contacts: seq<Id>, primaryTaken: bool)
      modifies this
      ensures links == old(links) + Fresh(Unique(contacts), primaryTaken)
    {
      var seen: seq<Id> := [];
      for i := 0 to |contacts|
        invariant seen == Unique(contacts[..i])
        invariant links == old(links) + Fresh(seen, primaryTaken)
      {
        assert contacts[..i + 1][..i] == contacts[..i];
        if contacts[i] !in seen {
          links := links + [Link(contacts[i], seen == [] && !primaryTaken)];
          seen := seen + [contacts[i]];
        }
      }
      assert contacts[..|contacts|] == contacts;
    }

    // The contacts of an update request; a refusal leaves the links alone.
    method Replace(contacts: seq<Id>, checked: set<Id>, visible: Option<set<Id>>) returns (refusal: Option<Update>)
      requires Consistent(links)
      modifies this
      ensures Consistent(links)
      ensures refusal == Some(NotFound) <==> exists c :: c in contacts && c !in checked
      ensures refusal == Some(KeyClash) <==>
        (forall c :: c in contacts ==> c in checked) && exists c :: c in contacts && Linked(old(links), c) && Hidden(visible, c)
      ensures refusal.Some? ==> links == old(links)
      ensures refusal.None? ==> Updated(old(links), contacts, checked, visible) == Done(links)
      ensures refusal.None? ==> forall c :: Linked(links, c) <==> c in contacts || (Hidden(visible, c) && Linked(old(links), c))
      ensures refusal.None? ==> forall l :: l in old(links) && Hidden(visible, l.contact) ==> l in links
      ensures refusal.None? && contacts != [] ==> HasPrimary(links)
    {
      UpdateRefusedIff(links, contacts, checked, visible);
      ReplacedConsistent(links, contacts, visible);
      hide Surviving, Fresh, Unique;
      var asked := set c | c in contacts;
      SameSize(asked * checked, asked);
      if |asked * checked| != |asked| {
        assert exists c :: c in asked && c !in checked;
        return Some(NotFound);
      }
      assert forall c :: c in contacts ==> c in asked * checked;
      var before := links;
      links := Surviving(links, visible);
      if exists c :: c in contacts && Linked(links, c) {
        links := before;
        return Some(KeyClash);
      }
      AddFresh(contacts, HasPrimary(links));
      return None;
    }

    static lemma SameSize(small: set<Id>, large: set<Id>)
      requires small <= large
      ensures |small| == |large| <==> small == large
    {
      if |small| == |large| {
        SubsetSize(large - small, large);
        assert large == small + (large - small);
      }
    }

    method AddImported(contacts: seq<Id>)
      requires Consistent(links) && Distinct(contacts)
      modifies this
      ensures Consistent(links) && links == Added(old(links), contacts)
    {
      var existing := set l | l in links :: l.contact;
      var hasPrimary := HasPrimary(links);
      for i := 0 to |contacts|
        invariant links == Added(old(links), contacts[..i])
        invariant hasPrimary == HasPrimary(links)
      {
        assert contacts[..i + 1][..i] == contacts[..i];
        assert contacts[i] in existing <==> Linked(old(links), contacts[i]);
        if contacts[i] !in existing {
          var link := Link(contacts[i], !hasPrimary);
          assert HasPrimary(links + [link]) by {
            if hasPrimary {
              var l :| l in links && l.primary;
              assert l in links + [link];
            } else {
              assert link in links + [link];
            }
          }
          links := links + [link];
          hasPrimary := true;
        }
      }
      assert contacts[..|contacts|] == contacts;
      AddedConsistent(old(links), contacts);
    }

    method SyncImported(mapped: seq<Mapped>)
      requires Consistent(links)
      modifies this
      ensures Consistent(links) && links == Synced(old(links), mapped)
      ensures mapped == [] ==> links == old(links)
      ensures mapped != [] ==> forall c :: Linked(links, c) <==> Linked(old(links), c) || exists m :: m in mapped && m.contact == c
      ensures mapped != [] ==> HasPrimary(links) && forall l :: l in links ==> (l.primary <==> ToBePrimary(mapped, l.contact))
    {
      hide Chosen, ToBePrimary;
      for i := 0 to |mapped|
        invariant links == Linking(old(links), mapped[..i])
      {
        assert mapped[..i + 1][..i] == mapped[..i];
        if !Linked(links, mapped[i].contact) {
          links := links + [Link(mapped[i].contact, false)];
        }
      }
      assert mapped[..|mapped|] == mapped;
      SyncedConsistent(old(links), mapped);
      if mapped != [] {
        links := Crowned(links, Chosen(mapped));
      }
    }
  }
}
