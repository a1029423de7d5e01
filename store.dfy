/**
 * The in-memory client list and the two form handlers that change it.
 *
 * `handleNewClient` validates the submitted form, derives the exposure and the
 * tier, stamps an id and a creation time, and appends the record.
 * `handleUpdateClient` finds the first record with the selected name, lays the
 * submitted form over it, validates, derives again and writes it back in place.
 * Neither checks names for uniqueness.
 */
module Store {
  import opened Wrappers
  import opened Numeric
  import opened Liability
  import opened Tiers

  /** A stored client. The five amounts stay text, as submitted; the exposure and tier are derived. */
  datatype Client = Client(
    id: string,
    name: string, email: string, phone: string, address: string,
    homeValue: string, vehicleValue: string, income: string, lifeInsurance: string, investments: string,
    claimsHistory: string, safetyFeatures: seq<string>,
    liabilityExposure: real, insuranceTier: string,
    createdAt: string, updatedAt: Option<string>)

  /** The field values of a submitted create or update form; a field the page lacks reads as "". */
  datatype ClientForm = ClientForm(
    name: string, email: string, phone: string, address: string,
    homeValue: string, vehicleValue: string, income: string, lifeInsurance: string, investments: string,
    claimsHistory: string, safetyFeatures: seq<string>)

  /** Why a handler refused the form. */
  datatype Invalid = MissingClientInfo | MissingAssetValues | MissingClaimsHistory | NoClientSelected

  datatype Outcome = Ok | ValidationError(reason: Invalid) | NotFound

  /** The exposure the formula gives for a record's own amount fields. */
  function ClientExposure(c: Client): real {
    CalculateLiabilityExposure(c.homeValue, c.vehicleValue, c.income, c.lifeInsurance, c.investments)
  }

  /** The derived fields agree with the record's own amounts. */
  predicate Consistent(c: Client) {
    c.liabilityExposure == ClientExposure(c) &&
    c.insuranceTier == GetInsuranceTier(c.liabilityExposure).Label()
  }

  predicate AllConsistent(cs: seq<Client>) {
    forall i :: 0 <= i < |cs| ==> Consistent(cs[i])
  }

  predicate HasContact(name: string, email: string, phone: string, address: string) {
    name != "" && email != "" && phone != "" && address != ""
  }

  /**
   * The three checks of `handleNewClient`, in order, on the form after its
   * `|| '0'` defaults. The asset check is there but can never fail.
   */
  function CreateCheck(f: ClientForm): (o: Outcome)
    ensures o == Ok <==> HasContact(f.name, f.email, f.phone, f.address) && f.claimsHistory != ""
    ensures o == ValidationError(MissingClientInfo) <==> !HasContact(f.name, f.email, f.phone, f.address)
    ensures o != ValidationError(MissingAssetValues) && o != ValidationError(NoClientSelected) && o != NotFound
  {
    if !HasContact(f.name, f.email, f.phone, f.address) then ValidationError(MissingClientInfo)
    else if OrZeroText(f.homeValue) == "" || OrZeroText(f.vehicleValue) == "" || OrZeroText(f.income) == ""
         || OrZeroText(f.lifeInsurance) == "" || OrZeroText(f.investments) == ""
    then ValidationError(MissingAssetValues)
    else if f.claimsHistory == "" then ValidationError(MissingClaimsHistory)
    else Ok
  }

  /** The record `handleNewClient` pushes. */
  function NewClient(f: ClientForm, id: string, createdAt: string): (c: Client)
    ensures Consistent(c)
    ensures c.name == f.name && c.email == f.email && c.phone == f.phone && c.address == f.address
    ensures c.claimsHistory == f.claimsHistory && c.safetyFeatures == f.safetyFeatures
    ensures c.id == id && c.createdAt == createdAt && c.updatedAt.None?
    ensures f.homeValue != "" ==> c.homeValue == f.homeValue
    ensures f.homeValue == "" ==> c.homeValue == "0"
    ensures f.vehicleValue != "" ==> c.vehicleValue == f.vehicleValue
    ensures f.vehicleValue == "" ==> c.vehicleValue == "0"
    ensures f.income != "" ==> c.income == f.income
    ensures f.income == "" ==> c.income == "0"
    ensures f.lifeInsurance != "" ==> c.lifeInsurance == f.lifeInsurance
    ensures f.lifeInsurance == "" ==> c.lifeInsurance == "0"
    ensures f.investments != "" ==> c.investments == f.investments
    ensures f.investments == "" ==> c.investments == "0"
    ensures ClientExposure(c) == CalculateLiabilityExposure(f.homeValue, f.vehicleValue, f.income,
                                                           f.lifeInsurance, f.investments)
  {
    var home, vehicle, income := OrZeroText(f.homeValue), OrZeroText(f.vehicleValue), OrZeroText(f.income);
    var life, investments := OrZeroText(f.lifeInsurance), OrZeroText(f.investments);
    OrZeroTextInvisible(f.homeValue);
    OrZeroTextInvisible(f.vehicleValue);
    OrZeroTextInvisible(f.income);
    OrZeroTextInvisible(f.lifeInsurance);
    OrZeroTextInvisible(f.investments);
    var exposure := CalculateLiabilityExposure(home, vehicle, income, life, investments);
    Client(id, f.name, f.email, f.phone, f.address, home, vehicle, income, life, investments,
           f.claimsHistory, f.safetyFeatures, exposure, GetInsuranceTier(exposure).Label(), createdAt, None)
  }

  /**
   * The record `handleUpdateClient` writes back: every form field replaces the
   * old value (empty amounts become "0"), the id and creation time survive the
   * spread, and the derived fields are computed again.
   */
  function Revised(prev: Client, f: ClientForm, updatedAt: string): (c: Client)
    ensures Consistent(c)
    ensures c.id == prev.id && c.createdAt == prev.createdAt && c.updatedAt == Some(updatedAt)
    ensures c.name == f.name && c.email == f.email && c.phone == f.phone && c.address == f.address
    ensures c.claimsHistory == f.claimsHistory && c.safetyFeatures == f.safetyFeatures
    ensures f.homeValue != "" ==> c.homeValue == f.homeValue
    ensures f.homeValue == "" ==> c.homeValue == "0"
    ensures f.vehicleValue != "" ==> c.vehicleValue == f.vehicleValue
    ensures f.vehicleValue == "" ==> c.vehicleValue == "0"
    ensures f.income != "" ==> c.income == f.income
    ensures f.income == "" ==> c.income == "0"
    ensures f.lifeInsurance != "" ==> c.lifeInsurance == f.lifeInsurance
    ensures f.lifeInsurance == "" ==> c.lifeInsurance == "0"
    ensures f.investments != "" ==> c.investments == f.investments
    ensures f.investments == "" ==> c.investments == "0"
    ensures ClientExposure(c) == CalculateLiabilityExposure(f.homeValue, f.vehicleValue, f.income,
                                                           f.lifeInsurance, f.investments)
  {
    var made := NewClient(f, prev.id, prev.createdAt);
    var c := made.(updatedAt := Some(updatedAt));
    assert ClientExposure(c) == ClientExposure(made);
    c
  }

  /** `findIndex(client => client.name === name)`: the first position holding that name. */
  function FindIndex(cs: seq<Client>, name: string): (r: Option<nat>)
    ensures r.Some? ==> r.value < |cs| && cs[r.value].name == name
    ensures r.Some? ==> forall j :: 0 <= j < r.value ==> cs[j].name != name
    ensures r.None? <==> forall j :: 0 <= j < |cs| ==> cs[j].name != name
  {
    if cs == [] then None
    else if cs[0].name == name then Some(0)
    else match FindIndex(cs[1..], name)
      case None => None
      case Some(i) => Some(i + 1)
  }

  /** `find(c => c.name === name)`, as the edit and summary views look a client up. */
  function FindClient(cs: seq<Client>, name: string): (r: Option<Client>)
    ensures r.Some? <==> exists j :: 0 <= j < |cs| && cs[j].name == name
    ensures r.Some? ==> r.value in cs && r.value.name == name
    ensures r.Some? ==> exists i :: FindIndex(cs, name) == Some(i) && r.value == cs[i]
  {
    match FindIndex(cs, name)
    case None => None
    case Some(i) => Some(cs[i])
  }

  /** The checks of `handleUpdateClient`, in order: a selection, a match, then the contact fields. */
  function UpdateCheck(cs: seq<Client>, selected: string, f: ClientForm): (o: Outcome)
    ensures o == ValidationError(NoClientSelected) <==> selected == ""
    ensures o == NotFound <==> selected != "" && FindIndex(cs, selected).None?
    ensures o == Ok <==> selected != "" && FindIndex(cs, selected).Some? &&
                         HasContact(f.name, f.email, f.phone, f.address)
    ensures o != ValidationError(MissingAssetValues) && o != ValidationError(MissingClaimsHistory)
  {
    if selected == "" then ValidationError(NoClientSelected)
    else if FindIndex(cs, selected).None? then NotFound
    else if !HasContact(f.name, f.email, f.phone, f.address) then ValidationError(MissingClientInfo)
    else Ok
  }

  /** What reading the saved list can give: nothing saved, unreadable content, or a list. */
  datatype Saved = NothingSaved | Unreadable | SavedList(records: seq<Client>)

  /** The session's list of clients, the page's `currentClients`. */
  class ClientList {
    var clients: seq<Client>

    constructor ()
      ensures clients == []
    {
      clients := [];
    }

    /** `loadClients`: adopt a saved list, drop to empty on a read error, keep the list otherwise. */
    method Load(saved: Saved)
      modifies this
      ensures saved.NothingSaved? ==> clients == old(clients)
      ensures saved.Unreadable? ==> clients == []
      ensures saved.SavedList? ==> clients == saved.records
    {
      match saved {
        case NothingSaved =>
        case Unreadable => clients := [];
        case SavedList(records) => clients := records;
      }
    }

    /**
     * `handleNewClient`: on success exactly one record is appended and every
     * earlier one is untouched; on any refusal the list is unchanged.
     */
    method Create(f: ClientForm, id: string, createdAt: string) returns (o: Outcome)
      modifies this
      ensures o == CreateCheck(f)
      ensures o == Ok ==> clients == old(clients) + [NewClient(f, id, createdAt)]
      ensures o != Ok ==> clients == old(clients)
      ensures AllConsistent(old(clients)) ==> AllConsistent(clients)
    {
      var home, vehicle, income := OrZeroText(f.homeValue), OrZeroText(f.vehicleValue), OrZeroText(f.income);
      var life, investments := OrZeroText(f.lifeInsurance), OrZeroText(f.investments);
      if f.name == "" || f.email == "" || f.phone == "" || f.address == "" {
        return ValidationError(MissingClientInfo);
      }
      if home == "" || vehicle == "" || income == "" || life == "" || investments == "" {
        return ValidationError(MissingAssetValues);
      }
      if f.claimsHistory == "" {
        return ValidationError(MissingClaimsHistory);
      }
      var exposure := CalculateLiabilityExposure(home, vehicle, income, life, investments);
      var tier := GetInsuranceTier(exposure).Label();
      var record := Client(id, f.name, f.email, f.phone, f.address, home, vehicle, income, life, investments,
                           f.claimsHistory, f.safetyFeatures, exposure, tier, createdAt, None);
      assert record == NewClient(f, id, createdAt);
      if AllConsistent(clients) {
        AppendKeepsConsistent(clients, record);
      }
      clients := clients + [record];
      o := Ok;
    }

    /**
     * `handleUpdateClient`: on success the first record named `selected` is
     * replaced where it stands and no other position changes; on any refusal the
     * list is unchanged.
     */
    method Update(selected: string, f: ClientForm, updatedAt: string) returns (o: Outcome)
      modifies this
      ensures o == UpdateCheck(old(clients), selected, f)
      ensures |clients| == |old(clients)|
      ensures o == Ok ==> var i := FindIndex(old(clients), selected).value;
                          clients == old(clients)[i := Revised(old(clients)[i], f, updatedAt)]
      ensures o != Ok ==> clients == old(clients)
      ensures AllConsistent(old(clients)) ==> AllConsistent(clients)
    {
      if selected == "" {
        return ValidationError(NoClientSelected);
      }
      var found := FindIndex(clients, selected);
      if found.None? {
        return NotFound;
      }
      var i := found.value;
      var prev := clients[i];
      var home, vehicle, income := OrZeroText(f.homeValue), OrZeroText(f.vehicleValue), OrZeroText(f.income);
      var life, investments := OrZeroText(f.lifeInsurance), OrZeroText(f.investments);
      var updated := prev.(name := f.name, email := f.email, phone := f.phone, address := f.address,
                           homeValue := home, vehicleValue := vehicle, income := income,
                           lifeInsurance := life, investments := investments,
                           claimsHistory := f.claimsHistory, safetyFeatures := f.safetyFeatures,
                           updatedAt := Some(updatedAt));
      if updated.name == "" || updated.email == "" || updated.phone == "" || updated.address == "" {
        return ValidationError(MissingClientInfo);
      }
      var exposure := CalculateLiabilityExposure(home, vehicle, income, life, investments);
      updated := updated.(liabilityExposure := exposure, insuranceTier := GetInsuranceTier(exposure).Label());
      assert updated == Revised(prev, f, updatedAt);
      if AllConsistent(clients) {
        ReplaceKeepsConsistent(clients, i, updated);
      }
      clients := clients[i := updated];
      o := Ok;
    }
  }

  /** Appending a consistent record to a consistent list keeps it consistent. */
  lemma AppendKeepsConsistent(cs: seq<Client>, c: Client)
    requires AllConsistent(cs) && Consistent(c)
    ensures AllConsistent(cs + [c])
  {
    forall i | 0 <= i < |cs| + 1
      ensures Consistent((cs + [c])[i])
    {
      if i < |cs| {
        assert (cs + [c])[i] == cs[i];
      }
    }
  }

  /** Replacing a record of a consistent list by a consistent one keeps it consistent. */
  lemma ReplaceKeepsConsistent(cs: seq<Client>, i: nat, c: Client)
    requires AllConsistent(cs) && Consistent(c) && i < |cs|
    ensures AllConsistent(cs[i := c])
  {
  }

  /** Appending a record never moves the first match of a name that was already there. */
  lemma {:induction false} FindIndexAppend(cs: seq<Client>, c: Client, name: string)
    ensures FindIndex(cs + [c], name) ==
            if FindIndex(cs, name).Some? then FindIndex(cs, name)
            else if c.name == name then Some(|cs|) else None
  {
    if cs != [] {
      assert (cs + [c])[1..] == cs[1..] + [c];
      FindIndexAppend(cs[1..], c, name);
    }
  }

  /**
   * A client created under a name not yet in the list is the one a later lookup
   * by that name finds, and its derived fields are the formula and the classifier
   * applied to the submitted amounts.
   */
  lemma CreateThenFind(cs: seq<Client>, f: ClientForm, id: string, createdAt: string)
    requires CreateCheck(f) == Ok && FindIndex(cs, f.name).None?
    ensures var c := NewClient(f, id, createdAt);
            FindClient(cs + [c], f.name) == Some(c) &&
            c.liabilityExposure == CalculateLiabilityExposure(f.homeValue, f.vehicleValue, f.income,
                                                              f.lifeInsurance, f.investments) &&
            c.insuranceTier == GetInsuranceTier(c.liabilityExposure).Label()
  {
    var c := NewClient(f, id, createdAt);
    assert FindClient(cs + [c], f.name) == Some(c) by {
      assert c.name == f.name;
      FindIndexAppend(cs, c, f.name);
    }
  }

  /**
   * Creating a second client under a name already present is accepted, but the
   * new record is shadowed: lookups and updates by that name still reach the
   * earlier one.
   */
  lemma DuplicateCreateShadowed(cs: seq<Client>, f: ClientForm, id: string, createdAt: string)
    requires CreateCheck(f) == Ok && FindIndex(cs, f.name).Some?
    ensures FindIndex(cs + [NewClient(f, id, createdAt)], f.name) == FindIndex(cs, f.name)
    ensures FindClient(cs + [NewClient(f, id, createdAt)], f.name) == FindClient(cs, f.name)
  {
    var c := NewClient(f, id, createdAt);
    assert FindIndex(cs + [c], f.name) == FindIndex(cs, f.name) by {
      assert c.name == f.name;
      FindIndexAppend(cs, c, f.name);
    }
    var i := FindIndex(cs, f.name).value;
    assert (cs + [c])[i] == cs[i];
  }

  /** Renaming by update is not checked either: an update can give two records the same name. */
  lemma UpdateCanDuplicateName(a: Client, b: Client, f: ClientForm, updatedAt: string)
    requires a.name == "Ann" && b.name == "Bob"
    requires f.name == "Ann" && HasContact(f.name, f.email, f.phone, f.address)
    ensures UpdateCheck([a, b], "Bob", f) == Ok
    ensures var after := [a, b][1 := Revised(b, f, updatedAt)];
            after[0].name == after[1].name == "Ann"
  {
    assert [a, b][1..] == [b];
    assert FindIndex([a, b], "Bob") == Some(1);
  }

  /** Updating a record and looking it up by its new name finds it unless an earlier record has that name. */
  lemma UpdateThenFind(cs: seq<Client>, selected: string, f: ClientForm, updatedAt: string)
    requires UpdateCheck(cs, selected, f) == Ok
    ensures var i := FindIndex(cs, selected).value;
            var after := cs[i := Revised(cs[i], f, updatedAt)];
            (forall j :: 0 <= j < i ==> cs[j].name != f.name) ==>
              FindIndex(after, f.name) == Some(i)
  {
    var i := FindIndex(cs, selected).value;
    var revised := Revised(cs[i], f, updatedAt);
    if forall j :: 0 <= j < i ==> cs[j].name != f.name {
      FindAfterReplace(cs, i, revised);
    }
  }

  /** A record put at position `i` under a name no earlier record has is what a lookup of that name finds. */
  lemma FindAfterReplace(cs: seq<Client>, i: nat, c: Client)
    requires i < |cs|
    requires forall j :: 0 <= j < i ==> cs[j].name != c.name
    ensures FindIndex(cs[i := c], c.name) == Some(i)
  {
    var after := cs[i := c];
    forall j | 0 <= j < i
      ensures after[j].name != c.name
    {
      assert after[j] == cs[j];
    }
    FindIndexFirst(after, c.name, i);
  }

  /** The position of a name is the first position holding it. */
  lemma {:induction false} FindIndexFirst(cs: seq<Client>, name: string, i: nat)
    requires i < |cs| && cs[i].name == name
    requires forall j :: 0 <= j < i ==> cs[j].name != name
    ensures FindIndex(cs, name) == Some(i)
  {
    if i > 0 {
      FindIndexFirst(cs[1..], name, i - 1);
    }
  }
}
