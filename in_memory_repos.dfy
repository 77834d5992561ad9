/** The two in-memory repositories: `TrustedContactsRepo`, an insertion-ordered set of trusted
    contacts looked up by phone number, and `DetectionsRepo`, an append-only list
    of detection results. */
module InMemoryRepos {
  import opened Domain

  /** A trusted contact; the app compares contacts only by phone number. */
  datatype TrustedContact = TrustedContact(phoneNumber: string, name: string)

  /** No contact occurs twice. */
  predicate Distinct(s: seq<TrustedContact>) {
    forall i, j :: 0 <= i < j < |s| ==> s[i] != s[j]
  }

  /** `removeAll { it.phoneNumber == phoneNumber }` on an insertion-ordered set:
      the other contacts, in their order. */
  function Without(s: seq<TrustedContact>, phoneNumber: string): (r: seq<TrustedContact>)
    ensures |r| <= |s|
    ensures forall c :: c in r <==> c in s && c.phoneNumber != phoneNumber
    ensures Distinct(s) ==> Distinct(r)
  {
    if |s| == 0 then []
    else
      var rest := Without(s[1..], phoneNumber);
      if s[0].phoneNumber == phoneNumber then rest
      else
        assert Distinct(s) ==> Distinct(s[1..]) by {
          if Distinct(s) {
            forall a, b | 0 <= a < b < |s[1..]| ensures s[1..][a] != s[1..][b] {
              assert s[1..][a] == s[a + 1] && s[1..][b] == s[b + 1];
            }
          }
        }
        [s[0]] + rest
  }

  /** `TrustedContactsRepo`: a `mutableSetOf`, which is a `LinkedHashSet`, so its
      contacts are kept in the order they were first added. */
  class TrustedContactsRepo {
    var contacts: seq<TrustedContact>

    predicate Valid()
      reads this
    {
      Distinct(contacts)
    }

    constructor()
      ensures contacts == [] && Valid()
    {
      contacts := [];
    }

    /** `isTrusted`: some stored contact has this phone number. */
    predicate IsTrusted(phoneNumber: string)
      reads this
    {
      exists c :: c in contacts && c.phoneNumber == phoneNumber
    }

    /** `add`: a new contact goes to the end; adding a stored contact again changes nothing. */
    method Add(contact: TrustedContact)
      requires Valid()
      modifies this
      ensures contact in old(contacts) ==> contacts == old(contacts)
      ensures contact !in old(contacts) ==> contacts == old(contacts) + [contact]
      ensures Valid() && IsTrusted(contact.phoneNumber)
    {
      if contact !in contacts {
        contacts := contacts + [contact];
      }
      assert contact in contacts;
    }

    /** `remove`: drops every contact with this phone number and keeps the rest in order. */
    method Remove(phoneNumber: string)
      requires Valid()
      modifies this
      ensures contacts == Without(old(contacts), phoneNumber)
      ensures Valid() && !IsTrusted(phoneNumber)
      ensures forall p :: p != phoneNumber ==> (IsTrusted(p) <==> old(IsTrusted(p)))
    {
      ghost var before := contacts;
      contacts := Without(contacts, phoneNumber);
      forall p | p != phoneNumber && old(IsTrusted(p)) ensures IsTrusted(p) {
        var c :| c in before && c.phoneNumber == p;
        assert c in contacts;
      }
    }

    /** `getAll`: `toList()` copies the contacts in insertion order, each exactly once. */
    method GetAll() returns (all: seq<TrustedContact>)
      requires Valid()
      ensures all == contacts
      ensures Distinct(all)
    {
      all := contacts;
    }
  }

  /** A contact added to a repository that does not hold it comes last in
      `getAll`, after the earlier contacts in their order. */
  method AddedContactListedLast(repo: TrustedContactsRepo, contact: TrustedContact)
    returns (all: seq<TrustedContact>)
    requires repo.Valid() && contact !in repo.contacts
    modifies repo
    ensures all == old(repo.contacts) + [contact]
  {
    repo.Add(contact);
    all := repo.GetAll();
  }

  class DetectionsRepo {
    var items: seq<DetectionResult>

    constructor()
      ensures items == []
    {
      items := [];
    }

    /** `add`: appends one result. */
    method Add(result: DetectionResult)
      modifies this
      ensures items == old(items) + [result]
    {
      items := items + [result];
    }

    /** `all`: a snapshot of the results in the order they were added. */
    method All() returns (snapshot: seq<DetectionResult>)
      ensures snapshot == items
    {
      snapshot := items;
    }
  }
}
