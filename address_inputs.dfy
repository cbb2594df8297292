/**
 * The internationalised address form of the Autofill dialog.
 *
 * `BuildAddressInputs` turns the address components of a country's format
 * (as libaddressinput lays them out) into the dialog's detail inputs: one
 * input per component, none for the organisation, a second line for a long
 * street address, and a closing country input.  The component list and
 * the localised country label are parameters; the UTF-8 to UTF-16
 * conversion of placeholders is the identity here.
 */
module AddressInputs {

  /** libaddressinput's address fields. */
  datatype AddressField =
    | Country
    | AdminArea
    | Locality
    | DependentLocality
    | SortingCode
    | PostalCode
    | StreetAddress
    | Organization
    | Recipient

  datatype LengthHint = HintLong | HintShort

  /** One row of a country's address format: the field, its label and how wide it is drawn. */
  datatype AddressUiComponent = AddressUiComponent(field: AddressField, name: string, lengthHint: LengthHint)

  datatype AddressType = AddressTypeShipping | AddressTypeBilling

  /** The Autofill field types an address input can carry. */
  datatype ServerFieldType =
    | UnknownType
    | NameFull
    | NameBillingFull
    | CompanyName
    | AddressHomeLine1
    | AddressHomeLine2
    | AddressHomeCity
    | AddressHomeState
    | AddressHomeZip
    | AddressHomeCountry
    | AddressHomeSortingCode
    | AddressHomeDependentLocality
    | AddressBillingLine1
    | AddressBillingLine2
    | AddressBillingCity
    | AddressBillingState
    | AddressBillingZip
    | AddressBillingCountry
    | AddressBillingSortingCode
    | AddressBillingDependentLocality

  predicate IsBillingType(t: ServerFieldType)
  {
    t in {NameBillingFull, AddressBillingLine1, AddressBillingLine2, AddressBillingCity, AddressBillingState,
          AddressBillingZip, AddressBillingCountry, AddressBillingSortingCode, AddressBillingDependentLocality}
  }

  predicate IsHomeType(t: ServerFieldType)
  {
    t in {NameFull, AddressHomeLine1, AddressHomeLine2, AddressHomeCity, AddressHomeState,
          AddressHomeZip, AddressHomeCountry, AddressHomeSortingCode, AddressHomeDependentLocality}
  }

  /**
   * The field type an address field fills: the billing variant for a
   * billing address and the home variant otherwise; the organisation is
   * the company name either way.
   */
  function GetServerType(field: AddressField, billing: bool): (t: ServerFieldType)
    ensures field == Organization <==> t == CompanyName
    ensures field != Organization ==> (IsBillingType(t) <==> billing) && (IsHomeType(t) <==> !billing)
    ensures t != UnknownType
  {
    match field
    case Country => if billing then AddressBillingCountry else AddressHomeCountry
    case AdminArea => if billing then AddressBillingState else AddressHomeState
    case Locality => if billing then AddressBillingCity else AddressHomeCity
    case DependentLocality => if billing then AddressBillingDependentLocality else AddressHomeDependentLocality
    case PostalCode => if billing then AddressBillingZip else AddressHomeZip
    case SortingCode => if billing then AddressBillingSortingCode else AddressHomeSortingCode
    case StreetAddress => if billing then AddressBillingLine1 else AddressHomeLine1
    case Recipient => if billing then NameBillingFull else NameFull
    case Organization => CompanyName
  }

  /** The address field behind a field type, when there is one. */
  function FieldOf(t: ServerFieldType): AddressField
  {
    match t
    case AddressBillingCountry | AddressHomeCountry => Country
    case AddressBillingState | AddressHomeState => AdminArea
    case AddressBillingCity | AddressHomeCity => Locality
    case AddressBillingDependentLocality | AddressHomeDependentLocality => DependentLocality
    case AddressBillingZip | AddressHomeZip => PostalCode
    case AddressBillingSortingCode | AddressHomeSortingCode => SortingCode
    case AddressBillingLine1 | AddressHomeLine1 | AddressBillingLine2 | AddressHomeLine2 => StreetAddress
    case NameBillingFull | NameFull => Recipient
    case CompanyName | UnknownType => Organization
  }

  /** The field type determines the field, so distinct fields of one address never share a type. */
  lemma GetServerTypeRoundTrip(field: AddressField, billing: bool)
    ensures FieldOf(GetServerType(field, billing)) == field
  {
  }

  datatype Length = LengthShort | LengthLong | LengthNone

  /** A short hint gives a short input and a long hint a long one. */
  function LengthFromHint(hint: LengthHint): (l: Length)
    ensures l == LengthShort <==> hint == HintShort
    ensures l == LengthLong <==> hint == HintLong
  {
    match hint
    case HintShort => LengthShort
    case HintLong => LengthLong
  }

  /** One input of the dialog's address section. */
  datatype DetailInput = DetailInput(length: Length, serverType: ServerFieldType, placeholder: string)

  function Line2Type(billing: bool): ServerFieldType
  {
    if billing then AddressBillingLine2 else AddressHomeLine2
  }

  /**
   * The inputs one component adds: none for the organisation, the
   * component's input otherwise, followed by a second street line of the
   * same length and placeholder for a long street address.
   */
  function ComponentInputs(c: AddressUiComponent, billing: bool): (r: seq<DetailInput>)
    ensures c.field == Organization <==> r == []
    ensures |r| == (if c.field == Organization then 0
                    else if c.field == StreetAddress && c.lengthHint == HintLong then 2
                    else 1)
    ensures forall i :: 0 <= i < |r| ==>
              r[i].placeholder == c.name && r[i].length == LengthFromHint(c.lengthHint)
    ensures |r| == 2 ==> r[0].serverType == GetServerType(StreetAddress, billing) && r[1].serverType == Line2Type(billing)
    ensures |r| == 1 ==> r[0].serverType == GetServerType(c.field, billing)
  {
    if c.field == Organization then []
    else
      var input := DetailInput(LengthFromHint(c.lengthHint), GetServerType(c.field, billing), c.name);
      if c.field == StreetAddress && c.lengthHint == HintLong then
        [input, DetailInput(input.length, Line2Type(billing), c.name)]
      else
        [input]
  }

  /** The inputs of all components, in component order. */
  function ComponentsInputs(components: seq<AddressUiComponent>, billing: bool): seq<DetailInput>
  {
    if components == [] then []
    else ComponentsInputs(components[..|components| - 1], billing) + ComponentInputs(components[|components| - 1], billing)
  }

  /** The country input that closes every address: no length, the country type, the localised label. */
  function CountryInput(billing: bool, countryLabel: string): (input: DetailInput)
    ensures input.length == LengthNone && input.serverType == GetServerType(Country, billing)
  {
    DetailInput(LengthNone, if billing then AddressBillingCountry else AddressHomeCountry, countryLabel)
  }

  /** Everything BuildAddressInputs appends for an address type. */
  function AddressInputs(components: seq<AddressUiComponent>, addressType: AddressType, countryLabel: string)
    : (r: seq<DetailInput>)
    ensures r != [] && r[|r| - 1] == CountryInput(addressType == AddressTypeBilling, countryLabel)
  {
    ComponentsInputs(components, addressType == AddressTypeBilling)
    + [CountryInput(addressType == AddressTypeBilling, countryLabel)]
  }

  /**
   * Appends the address inputs for `components` to `inputs`, which keeps
   * what it held before as a prefix.
   */
  method BuildAddressInputs(addressType: AddressType, components: seq<AddressUiComponent>, countryLabel: string,
                            inputs: seq<DetailInput>) returns (result: seq<DetailInput>)
    ensures result == inputs + AddressInputs(components, addressType, countryLabel)
  {
    var billing := addressType == AddressTypeBilling;
    result := AppendComponentsInputs(components, billing, inputs);
    var serverType := if billing then AddressBillingCountry else AddressHomeCountry;
    result := result + [DetailInput(LengthNone, serverType, countryLabel)];
  }

  /** The loop of BuildAddressInputs: the inputs of every component, in order, pushed onto `inputs`. */
  method AppendComponentsInputs(components: seq<AddressUiComponent>, billing: bool, inputs: seq<DetailInput>)
    returns (result: seq<DetailInput>)
    ensures result == inputs + ComponentsInputs(components, billing)
  {
    result := inputs;
    assert components[..0] == [] && inputs + [] == inputs;
    for i := 0 to |components|
      invariant result == inputs + ComponentsInputs(components[..i], billing)
    {
      ComponentsInputsStep(components, i, billing);
      assert inputs + ComponentsInputs(components[..i], billing) + ComponentInputs(components[i], billing)
             == inputs + ComponentsInputs(components[..i + 1], billing);
      result := AppendComponentInputs(components[i], billing, result);
    }
    assert components[..|components|] == components;
  }

  lemma ComponentsInputsStep(components: seq<AddressUiComponent>, i: nat, billing: bool)
    requires i < |components|
    ensures ComponentsInputs(components[..i + 1], billing)
            == ComponentsInputs(components[..i], billing) + ComponentInputs(components[i], billing)
  {
    assert components[..i + 1][..i] == components[..i];
  }

  /** The body of BuildAddressInputs's loop: the inputs of one component, pushed onto `inputs`. */
  method AppendComponentInputs(component: AddressUiComponent, billing: bool, inputs: seq<DetailInput>)
    returns (result: seq<DetailInput>)
    ensures result == inputs + ComponentInputs(component, billing)
  {
    result := inputs;
    if component.field == Organization {
      return;
    }
    var input := DetailInput(LengthFromHint(component.lengthHint), GetServerType(component.field, billing),
                             component.name);
    result := result + [input];
    if component.field == StreetAddress && component.lengthHint == HintLong {
      result := result + [DetailInput(input.length, Line2Type(billing), component.name)];
    }
  }

  // ---------------------------------------------------------------------
  // Properties of the appended inputs
  // ---------------------------------------------------------------------

  function CountNonOrganization(components: seq<AddressUiComponent>): nat
  {
    if components == [] then 0
    else CountNonOrganization(components[..|components| - 1])
         + (if components[|components| - 1].field != Organization then 1 else 0)
  }

  function CountLongStreet(components: seq<AddressUiComponent>): nat
  {
    if components == [] then 0
    else CountLongStreet(components[..|components| - 1])
         + (if components[|components| - 1].field == StreetAddress && components[|components| - 1].lengthHint == HintLong
            then 1 else 0)
  }

  /** One input per component other than the organisation, one more per long street, and the country. */
  lemma {:induction false} AddressInputsCount(components: seq<AddressUiComponent>, addressType: AddressType,
                                              countryLabel: string)
    ensures |AddressInputs(components, addressType, countryLabel)|
            == CountNonOrganization(components) + CountLongStreet(components) + 1
  {
    ComponentsInputsCount(components, addressType == AddressTypeBilling);
  }

  lemma {:induction false} ComponentsInputsCount(components: seq<AddressUiComponent>, billing: bool)
    ensures |ComponentsInputs(components, billing)| == CountNonOrganization(components) + CountLongStreet(components)
    decreases |components|
  {
    if components != [] {
      ComponentsInputsCount(components[..|components| - 1], billing);
    }
  }

  /** The inputs follow the components: a longer list of components only adds inputs at the end. */
  lemma {:induction false} ComponentsInputsAppend(a: seq<AddressUiComponent>, b: seq<AddressUiComponent>, billing: bool)
    ensures ComponentsInputs(a + b, billing) == ComponentsInputs(a, billing) + ComponentsInputs(b, billing)
    decreases |b|
  {
    if b == [] {
      assert a + b == a;
    } else {
      var last := b[|b| - 1];
      assert (a + b)[..|a + b| - 1] == a + b[..|b| - 1];
      ComponentsInputsAppend(a, b[..|b| - 1], billing);
    }
  }

  function WithoutOrganization(components: seq<AddressUiComponent>): (r: seq<AddressUiComponent>)
    ensures forall i :: 0 <= i < |r| ==> r[i].field != Organization
  {
    if components == [] then []
    else
      var rest := WithoutOrganization(components[..|components| - 1]);
      if components[|components| - 1].field == Organization then rest else rest + [components[|components| - 1]]
  }

  /** Organisation components make no difference to the form. */
  lemma {:induction false} OrganizationIgnored(components: seq<AddressUiComponent>, billing: bool)
    ensures ComponentsInputs(WithoutOrganization(components), billing) == ComponentsInputs(components, billing)
    decreases |components|
  {
    if components != [] {
      var init, last := components[..|components| - 1], components[|components| - 1];
      OrganizationIgnored(init, billing);
      if last.field != Organization {
        ComponentsInputsAppend(WithoutOrganization(init), [last], billing);
        assert [last][..0] == [];
      }
    }
  }

  /**
   * Every appended input has the variant of the address type: billing
   * types for a billing address, home types otherwise, and never the
   * company name.
   */
  lemma {:induction false} InputsMatchAddressType(components: seq<AddressUiComponent>, addressType: AddressType,
                                                  countryLabel: string)
    ensures forall input :: input in AddressInputs(components, addressType, countryLabel) ==>
              (IsBillingType(input.serverType) <==> addressType == AddressTypeBilling)
              && input.serverType != CompanyName
  {
    var billing := addressType == AddressTypeBilling;
    ComponentsInputsMatch(components, billing);
  }

  lemma {:induction false} ComponentsInputsMatch(components: seq<AddressUiComponent>, billing: bool)
    ensures forall input :: input in ComponentsInputs(components, billing) ==>
              (IsBillingType(input.serverType) <==> billing) && input.serverType != CompanyName
    decreases |components|
  {
    if components != [] {
      ComponentsInputsMatch(components[..|components| - 1], billing);
      var last := ComponentInputs(components[|components| - 1], billing);
      forall input | input in last
        ensures (IsBillingType(input.serverType) <==> billing) && input.serverType != CompanyName
      {
        var i :| 0 <= i < |last| && last[i] == input;
      }
    }
  }
}
