/** The accreditation ledger of the first-generation codebase: credit information per registered
    index, and the set of indices that were called and carry a credit. `Accreditation` is a
    singleton whose ledger lives on the class, so every construction sees the one object this
    model passes around. */
module AbstractAccreditation {
  import opened Common
  import opened Metacoding

  /** `CreditType`: what a user of the registered object owes its author. */
  datatype CreditType = Reference | Acknowledgement | NoCredit | Other

  /** `CreditInfo`: the author and the optional details. */
  datatype CreditInfo = CreditInfo(author: string, github: Option<string>, url: Option<string>, additionalInformation: Option<string>)

  /** An entry of the ledger: the credit and its type. */
  datatype Credit = Credit(info: CreditInfo, creditType: CreditType)

  /** `called_objects` after marking `index`: it is added when it has a credit, and only then. */
  function Marked(called: set<string>, credited: set<string>, index: string): (r: set<string>)
    ensures called <= r && r <= called + {index}
    ensures index in r <==> index in called || index in credited
  {
    if index in credited then called + {index} else called
  }

  /** Marking never records an index without a credit, and marking twice is marking once. */
  lemma MarkedKeepsLedgerInvariant(called: set<string>, credited: set<string>, index: string)
    requires called <= credited
    ensures Marked(called, credited, index) <= credited
    ensures Marked(Marked(called, credited, index), credited, index) == Marked(called, credited, index)
  {
  }

  class Accreditation {
    const accreditations: UniqueDict<Credit>
    var calledObjects: set<string>

    /** Only credited indices are ever recorded as called. */
    ghost predicate Valid()
      reads this, accreditations
    {
      calledObjects <= accreditations.items.Keys
    }

    constructor (accreditations: UniqueDict<Credit>)
      requires accreditations.items == map[]
      ensures Valid() && this.accreditations == accreditations && calledObjects == {}
    {
      this.accreditations := accreditations;
      calledObjects := {};
    }

    /** `add_credit(index, credit, credit_type=CreditType.NONE)`: stores the credit; an index
        that already has one raises `KeyError` and keeps it. */
    method AddCredit(index: string, credit: CreditInfo, creditType: CreditType) returns (o: Outcome)
      requires Valid()
      modifies accreditations
      ensures Valid() && calledObjects == old(calledObjects)
      ensures index in old(accreditations.items) ==> o == Fail(DuplicateKey) && accreditations.items == old(accreditations.items)
      ensures index !in old(accreditations.items) ==>
        o == Pass && accreditations.items == old(accreditations.items)[index := Credit(credit, creditType)]
    {
      o := accreditations.Insert(index, Credit(credit, creditType));
    }

    /** `add_credit` with the default credit type. */
    method AddDefaultCredit(index: string, credit: CreditInfo) returns (o: Outcome)
      requires Valid()
      modifies accreditations
      ensures Valid() && calledObjects == old(calledObjects)
      ensures index !in old(accreditations.items) ==>
        o == Pass && accreditations.items == old(accreditations.items)[index := Credit(credit, NoCredit)]
      ensures index in old(accreditations.items) ==> o.Fail? && accreditations.items == old(accreditations.items)
    {
      o := AddCredit(index, credit, NoCredit);
    }

    /** `get`: the stored credit, or `KeyError` for an index without one. */
    function Get(index: string): (r: Result<Credit>)
      reads this, accreditations
      ensures r.Ok? <==> index in accreditations.items
      ensures r.Ok? ==> r.value == accreditations.items[index]
      ensures r.Err? ==> r.error == KeyError(StrRepr(index))
    {
      accreditations.Get(index)
    }

    /** `register_accreditation`: records the index as called when it has a credit. */
    method RegisterAccreditation(index: string)
      requires Valid()
      modifies this
      ensures Valid()
      ensures calledObjects == Marked(old(calledObjects), accreditations.items.Keys, index)
    {
      if index in accreditations.items {
        calledObjects := calledObjects + {index};
      }
    }

    /** `called`: the same as `register_accreditation`. */
    method Called(index: string)
      requires Valid()
      modifies this
      ensures Valid()
      ensures calledObjects == Marked(old(calledObjects), accreditations.items.Keys, index)
    {
      RegisterAccreditation(index);
    }
  }

  /** A credit added and read back is the one stored; marking the index called twice records it
      once; an index without credit is never recorded. */
  method CreditRoundTrip(ledger: Accreditation, index: string, other: string, credit: CreditInfo)
    returns (added: Outcome, got: Result<Credit>)
    requires ledger.Valid() && index !in ledger.accreditations.items && other !in ledger.accreditations.items && other != index
    modifies ledger, ledger.accreditations
    ensures added == Pass && got == Ok(Credit(credit, NoCredit))
    ensures ledger.Valid() && ledger.calledObjects == old(ledger.calledObjects) + {index}
  {
    added := ledger.AddDefaultCredit(index, credit);
    got := ledger.Get(index);
    ledger.RegisterAccreditation(index);
    ledger.Called(index);
    ledger.Called(other);
  }
}
