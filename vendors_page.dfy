/**
 * The state of the vendors page, rfp-frontend/app/vendors/page.tsx: the vendor list,
 * the selected vendor ids, the chosen RFP, the form fields and the two messages,
 * and the handlers that change them. Each awaited API call is an input telling how
 * it ended.
 */
module VendorsPage {
  import opened Common
  import opened Js

  datatype Vendor = Vendor(id: int, name: string, email: string, createdAt: string)

  /** How an awaited call ended: it resolved, threw an `Error` with a message, or threw something else. */
  datatype Outcome<T> = Resolved(value: T) | ThrewError(message: string) | ThrewOther

  /** The error shown for a failed call: the `Error`'s message, or the handler's fixed text. */
  function ErrorText<T>(o: Outcome<T>, fallback: string): (t: string)
  {
    match o
    case ThrewError(m) => m
    case _ => fallback
  }

  // ---------------------------------------------------------------------------
  // The list updaters

  /** `s.filter(keep)`. */
  function Filter<T(==)>(s: seq<T>, keep: T -> bool): (r: seq<T>)
    ensures |r| <= |s|
    ensures forall i :: 0 <= i < |r| ==> r[i] in s && keep(r[i])
    ensures forall i :: 0 <= i < |s| && keep(s[i]) ==> s[i] in r
  {
    if s == [] then [] else (if keep(s[0]) then [s[0]] else []) + Filter(s[1..], keep)
  }

  /** Filtering keeps every occurrence of a kept value and none of a dropped one. */
  lemma {:induction false} FilterCounts<T>(s: seq<T>, keep: T -> bool)
    ensures forall x :: multiset(Filter(s, keep))[x] == if keep(x) then multiset(s)[x] else 0
  {
    if s != [] {
      FilterCounts(s[1..], keep);
      assert s == [s[0]] + s[1..];
      assert Filter(s, keep) == (if keep(s[0]) then [s[0]] else []) + Filter(s[1..], keep);
    }
  }

  /** `a` is `b` with some elements left out, the rest in their original order. */
  predicate Subsequence<T(==)>(a: seq<T>, b: seq<T>)
    decreases |b|
  {
    if a == [] then true
    else if b == [] then false
    else if a[0] == b[0] then Subsequence(a[1..], b[1..])
    else Subsequence(a, b[1..])
  }

  /** Filtering keeps the relative order of what it keeps. */
  lemma {:induction false} FilterIsSubsequence<T>(s: seq<T>, keep: T -> bool)
    ensures Subsequence(Filter(s, keep), s)
  {
    if s != [] {
      FilterIsSubsequence(s[1..], keep);
      if keep(s[0]) {
        assert Filter(s, keep) == [s[0]] + Filter(s[1..], keep);
        assert Filter(s, keep)[1..] == Filter(s[1..], keep);
      } else {
        var r := Filter(s, keep);
        // s[0] was dropped, so it cannot head what was kept
        assert r == Filter(s[1..], keep);
        assert r != [] ==> keep(r[0]);
      }
    }
  }

  /** Filtering distributes over concatenation. */
  lemma {:induction false} FilterConcat<T>(a: seq<T>, b: seq<T>, keep: T -> bool)
    ensures Filter(a + b, keep) == Filter(a, keep) + Filter(b, keep)
  {
    if a != [] {
      assert (a + b)[0] == a[0] && (a + b)[1..] == a[1..] + b;
      FilterConcat(a[1..], b, keep);
      assert Filter(a + b, keep) == (if keep(a[0]) then [a[0]] else []) + Filter(a[1..] + b, keep);
      assert Filter(a, keep) == (if keep(a[0]) then [a[0]] else []) + Filter(a[1..], keep);
    } else {
      assert a + b == b;
    }
  }

  /** Filtering a list whose every element is kept changes nothing. */
  lemma {:induction false} FilterKeepsAll<T>(s: seq<T>, keep: T -> bool)
    requires forall x :: x in s ==> keep(x)
    ensures Filter(s, keep) == s
  {
    if s != [] {
      assert forall x :: x in s[1..] ==> x in s;
      FilterKeepsAll(s[1..], keep);
    }
  }

  /** No value occurs twice. */
  predicate NoDuplicates<T(==)>(s: seq<T>)
  {
    forall i, j :: 0 <= i < j < |s| ==> s[i] != s[j]
  }

  /** Filtering a list without duplicates gives a list without duplicates. */
  lemma {:induction false} FilterNoDuplicates<T>(s: seq<T>, keep: T -> bool)
    requires NoDuplicates(s)
    ensures NoDuplicates(Filter(s, keep))
  {
    if s != [] {
      assert NoDuplicates(s[1..]) by {
        forall i, j | 0 <= i < j < |s[1..]| ensures s[1..][i] != s[1..][j] {
          assert s[1..][i] == s[i + 1] && s[1..][j] == s[j + 1];
        }
      }
      FilterNoDuplicates(s[1..], keep);
      assert s[0] !in s[1..] by {
        forall k | 0 <= k < |s[1..]| ensures s[1..][k] != s[0] {
          assert s[1..][k] == s[k + 1];
        }
      }
    }
  }

  /** `prev.filter((vid) => vid !== id)`. */
  function Without(ids: seq<int>, id: int): (r: seq<int>)
    ensures id !in r
  {
    Filter(ids, x => x != id)
  }

  /** `prev.filter((v) => v.id !== id)`. */
  function RemoveVendor(vendors: seq<Vendor>, id: int): (r: seq<Vendor>)
    ensures forall i :: 0 <= i < |r| ==> r[i].id != id
  {
    Filter(vendors, (v: Vendor) => v.id != id)
  }

  /** The updater of `toggleVendorSelection`: drop every occurrence if present, else append. */
  function Toggled(ids: seq<int>, id: int): (r: seq<int>)
    ensures id in r <==> id !in ids
  {
    if id in ids then Without(ids, id) else ids + [id]
  }

  /** Toggling flips the membership of `id` and leaves every other id's membership alone. */
  lemma ToggleFlipsMembership(ids: seq<int>, id: int, x: int)
    ensures x in Toggled(ids, id) <==> if x == id then id !in ids else x in ids
  {
  }

  /** Toggling an absent id appends it at the end; toggling a present one removes all its occurrences. */
  lemma ToggleShape(ids: seq<int>, id: int)
    ensures id !in ids ==> Toggled(ids, id) == ids + [id]
    ensures id in ids ==> id !in Toggled(ids, id) && Subsequence(Toggled(ids, id), ids)
  {
    FilterIsSubsequence(ids, x => x != id);
  }

  /** Toggling keeps the selection free of duplicates. */
  lemma ToggleKeepsNoDuplicates(ids: seq<int>, id: int)
    requires NoDuplicates(ids)
    ensures NoDuplicates(Toggled(ids, id))
  {
    if id in ids {
      FilterNoDuplicates(ids, x => x != id);
    }
  }

  /** Toggling an absent id twice restores the selection exactly. */
  lemma ToggleTwiceRestores(ids: seq<int>, id: int)
    requires id !in ids
    ensures Toggled(Toggled(ids, id), id) == ids
  {
    var keep := x => x != id;
    FilterConcat(ids, [id], keep);
    FilterKeepsAll(ids, keep);
    assert Filter([id], keep) == [];
  }

  /** A delete removes exactly the vendors with that id, keeping the others in order. */
  lemma RemoveVendorProperties(vendors: seq<Vendor>, id: int)
    ensures forall v :: v in RemoveVendor(vendors, id) <==> v in vendors && v.id != id
    ensures Subsequence(RemoveVendor(vendors, id), vendors)
    ensures forall v :: v in vendors && v.id != id ==> multiset(RemoveVendor(vendors, id))[v] == multiset(vendors)[v]
  {
    FilterIsSubsequence(vendors, (v: Vendor) => v.id != id);
    FilterCounts(vendors, (v: Vendor) => v.id != id);
  }

  // ---------------------------------------------------------------------------
  // The guards

  /** `handleCreateVendor` calls the API only when neither field trims to empty. */
  predicate CreateAllowed(name: string, email: string)
  {
    Trim(name) != "" && Trim(email) != ""
  }

  /** `handleSendRfp` calls the API only with an RFP chosen (`!selectedRfpId` also rejects id 0) and a vendor selected. */
  predicate SendAllowed(selectedRfpId: Option<int>, selected: seq<int>)
  {
    selectedRfpId.Some? && selectedRfpId.value != 0 && |selected| > 0
  }

  /** The counts of the send endpoint's reply, each possibly missing. */
  datatype SendCounts = SendCounts(sent: Option<Json>, attempted: Option<Json>)

  /** `${v ?? 0}`. */
  function CountText(rt: Runtime, v: Option<Json>): (t: string)
    ensures v.None? || v == Some(JNull) ==> t == rt.numberToString(0.0)
    ensures v.Some? && v.value.JNum? ==> t == rt.numberToString(v.value.n)
  {
    match v
    case Some(x) => if x.JNull? then ToText(rt, JNum(0.0)) else ToText(rt, x)
    case None => ToText(rt, JNum(0.0))
  }

  /** The notice shown after a send. */
  function SentNotice(rt: Runtime, counts: SendCounts): (notice: string)
    ensures |notice| > 12 && notice[..12] == "RFP sent to "
  {
    "RFP sent to " + CountText(rt, counts.sent) + " out of " + CountText(rt, counts.attempted) + " selected vendors."
  }

  // ---------------------------------------------------------------------------
  // The page state

  class Page {
    var vendors: seq<Vendor>
    var selectedVendorIds: seq<int>
    var selectedRfpId: Option<int>
    var name: string
    var email: string
    var error: Option<string>
    var info: Option<string>

    /** The selection never holds an id twice. */
    ghost predicate Valid()
      reads this
    {
      NoDuplicates(selectedVendorIds)
    }

    /** The initial `useState` values. */
    constructor ()
      ensures Valid()
      ensures vendors == [] && selectedVendorIds == [] && selectedRfpId == None
      ensures name == "" && email == "" && error == None && info == None
    {
      vendors, selectedVendorIds, selectedRfpId := [], [], None;
      name, email, error, info := "", "", None, None;
    }

    /** `toggleVendorSelection(id)`. */
    method ToggleVendorSelection(id: int)
      requires Valid()
      modifies this`selectedVendorIds
      ensures Valid()
      ensures selectedVendorIds == Toggled(old(selectedVendorIds), id)
    {
      ToggleKeepsNoDuplicates(selectedVendorIds, id);
      if id in selectedVendorIds {
        selectedVendorIds := Without(selectedVendorIds, id);
      } else {
        selectedVendorIds := selectedVendorIds + [id];
      }
    }

    /** `handleDeleteVendor(id)`; `outcome` is how `deleteVendor(id)` ended. */
    method HandleDeleteVendor(id: int, outcome: Outcome<()>)
      requires Valid()
      modifies this`vendors, this`selectedVendorIds, this`error, this`info
      ensures Valid()
      ensures outcome.Resolved? ==>
        && vendors == RemoveVendor(old(vendors), id)
        && selectedVendorIds == Without(old(selectedVendorIds), id)
        && error == None && info == Some("Vendor deleted.")
      ensures !outcome.Resolved? ==>
        && vendors == old(vendors) && selectedVendorIds == old(selectedVendorIds)
        && error == Some(ErrorText(outcome, "Failed to delete vendor.")) && info == None
    {
      error, info := None, None;
      if outcome.Resolved? {
        FilterNoDuplicates(selectedVendorIds, x => x != id);
        vendors := RemoveVendor(vendors, id);
        selectedVendorIds := Without(selectedVendorIds, id);
        info := Some("Vendor deleted.");
      } else {
        error := Some(ErrorText(outcome, "Failed to delete vendor."));
      }
    }

    /**
     * `handleCreateVendor`; `outcome` is how `createVendor` would end. Returns the
     * request body sent, `None` when the guard stops the handler before any call.
     */
    method HandleCreateVendor(outcome: Outcome<Vendor>) returns (request: Option<(string, string)>)
      requires Valid()
      modifies this`vendors, this`name, this`email, this`error, this`info
      ensures Valid()
      ensures request.Some? <==> CreateAllowed(old(name), old(email))
      ensures request.Some? ==> request.value == (old(name), old(email))
      ensures request.None? ==>
        && vendors == old(vendors) && name == old(name) && email == old(email)
        && error == Some("Both name and email are required.") && info == None
      ensures request.Some? && outcome.Resolved? ==>
        && vendors == [outcome.value] + old(vendors) && name == "" && email == ""
        && error == None && info == Some("Vendor created successfully.")
      ensures request.Some? && !outcome.Resolved? ==>
        && vendors == old(vendors) && name == old(name) && email == old(email)
        && error == Some(ErrorText(outcome, "Failed to create vendor.")) && info == None
    {
      error, info := None, None;
      var allowed := CreateAllowed(name, email);
      if !allowed {
        error := Some("Both name and email are required.");
        return None;
      }
      request := Some((name, email));
      ApplyCreateOutcome(outcome);
    }

    /** The `try` block of `handleCreateVendor` after the guard, with both messages cleared. */
    method ApplyCreateOutcome(outcome: Outcome<Vendor>)
      requires error == None && info == None
      modifies this`vendors, this`name, this`email, this`error, this`info
      ensures outcome.Resolved? ==>
        && vendors == [outcome.value] + old(vendors) && name == "" && email == ""
        && error == None && info == Some("Vendor created successfully.")
      ensures !outcome.Resolved? ==>
        && vendors == old(vendors) && name == old(name) && email == old(email)
        && error == Some(ErrorText(outcome, "Failed to create vendor.")) && info == None
    {
      if outcome.Resolved? {
        vendors := [outcome.value] + vendors;
        name, email := "", "";
        info := Some("Vendor created successfully.");
      } else {
        error := Some(ErrorText(outcome, "Failed to create vendor."));
      }
    }

    /**
     * `handleSendRfp`; `outcome` is how `sendRfpToVendors` would end. Returns the RFP id
     * and vendor ids sent, `None` when a guard stops the handler before any call.
     */
    method HandleSendRfp(rt: Runtime, outcome: Outcome<SendCounts>) returns (request: Option<(int, seq<int>)>)
      requires Valid()
      modifies this`error, this`info
      ensures Valid()
      ensures request.Some? <==> SendAllowed(selectedRfpId, selectedVendorIds)
      ensures request.Some? ==> request.value == (selectedRfpId.value, selectedVendorIds)
      ensures selectedRfpId.None? || selectedRfpId.value == 0 ==>
        error == Some("Please select an RFP to send.") && info == None
      ensures selectedRfpId.Some? && selectedRfpId.value != 0 && selectedVendorIds == [] ==>
        error == Some("Please select at least one vendor.") && info == None
      ensures request.Some? && outcome.Resolved? ==> error == None && info == Some(SentNotice(rt, outcome.value))
      ensures request.Some? && !outcome.Resolved? ==>
        error == Some(ErrorText(outcome, "Failed to send RFP.")) && info == None
    {
      error, info := None, None;
      if selectedRfpId.None? || selectedRfpId.value == 0 {
        error := Some("Please select an RFP to send.");
        return None;
      }
      if |selectedVendorIds| == 0 {
        error := Some("Please select at least one vendor.");
        return None;
      }
      request := Some((selectedRfpId.value, selectedVendorIds));
      if outcome.Resolved? {
        info := Some(SentNotice(rt, outcome.value));
      } else {
        error := Some(ErrorText(outcome, "Failed to send RFP."));
      }
    }
  }
}
