/** The customer stage (`CustomerGenerator` in gen_customers.py): one customer
    context and one schema row per profile. Faker output, dates and random
    numbers arrive as a `CustomerDraws` record per profile. */
module Customers {
  import opened Text
  import opened Shared
  import opened Reference

  /** One entry of a profile's `accounts` list: a dict (its text fields and
      its `count`), a bare account-kind string, or anything else. */
  datatype AccountEntry =
    | Structured(fields: map<string, string>, count: Option<int>)
    | Label(kind: string)
    | Ignored

  /** A customer profile of the blueprint: its text fields and its `accounts`
      list (empty when the key is absent or holds no list). */
  datatype Profile = Profile(fields: map<string, string>, accounts: seq<AccountEntry>)

  /** What the generator loads at construction: its column specification and
      the reference tables (`load_file` results) it resolves against. */
  datatype CustomerTables = CustomerTables(
    spec: Spec,
    countries: Table,
    orgUnits: Table,
    genders: Table,
    customerTypes: Table,
    segments: Table,
    categories: Table,
    branchIds: seq<string>,
    employeeIds: seq<string>)

  /** The random and Faker values one profile consumes. */
  datatype CustomerDraws = CustomerDraws(
    idNumber: nat,            // randint(100000, 999999) for the ID
    companyName: string,      // local_fake.company()
    firstName: string,        // local_fake.first_name()
    lastName: string,         // local_fake.last_name()
    maleCoin: bool,           // random.random() > 0.5
    genderPick: nat,          // random.choice(gender_codes)
    registeredNumber: nat,    // randint(10000, 99999)
    incorporationDate: string,
    branchPick: nat,
    employeePick: nat,
    acquisitionDate: string,
    dateOfBirth: string,
    birthCity: string,        // local_fake.city() for PLACE_OF_BIRTH
    city: string,             // local_fake.city() for OVERRIDE_CITY
    streetAddress: string,
    postcode: string,
    phoneArea: nat,           // randint(10, 999)
    phoneNumber: nat,         // randint(1000000, 9999999)
    taxDigits: nat)           // fake.random_number(digits=9)

  /** The customer context dict built by `generate_single_profile`. */
  datatype Customer = Customer(
    id: string,
    accountsBlueprint: seq<AccountEntry>,
    orgUnit: string,
    customerTypeCode: string,
    customerCategoryCode: string,
    customerSegment1: string,
    businessSegment1: string,
    countryCode: string,
    customerName: string,
    companyName: string,
    firstName: string,
    lastName: string,
    middleNames: string,
    genderCode: string,
    primeBranchId: string,
    relationshipMgrId: string,
    acquisitionDate: string,
    registeredNumber: string,
    incorporationDate: string,
    incorporationCountryCode: string,
    maritalStatus: string,
    occupation: string,
    employmentStatus: string,
    dateOfBirth: string,
    placeOfBirth: string,
    residenceFlag: string,
    specialAttentionFlag: string,
    deceasedFlag: string,
    bankruptFlag: string,
    faceToFaceFlag: string,
    customerChannelRemoteFlag: string,
    adverseMediaFlagIngested: string,
    wireInNumber: string,
    wireOutNumber: string,
    wireInVolume: string,
    wireOutVolume: string,
    cashInVolume: string,
    cashOutVolume: string,
    checkInVolume: string,
    checkOutVolume: string,
    sourceOfFunds: string,
    taxNumber: string,
    taxNumberIssuedBy: string,
    companyForm: string,
    businessType: string,
    vatNumber: string,
    personTitle: string,
    taxNumberType: string,
    overrideCity: string,
    overrideAddress: string,
    postalCode: string,
    isCompany: bool,
    emailAddress: string,
    phoneCountryCode: string,
    phoneAreaCode: string,
    phoneNumber: string,
    phoneExtension: string,
    role: string,
    networkId: Value)
  {
    /** The context as the dict the schema-row mapping looks names up in,
        written as its (key, value) pairs in insertion order. */
    function Fields(): seq<(string, Value)> {
      [
        ("ID", Str(id)),
        ("ORG_UNIT", Str(orgUnit)),
        ("CUSTOMER_TYPE_CODE", Str(customerTypeCode)),
        ("CUSTOMER_CATEGORY_CODE", Str(customerCategoryCode)),
        ("CUSTOMER_SEGMENT_1", Str(customerSegment1)),
        ("BUSINESS_SEGMENT_1", Str(businessSegment1)),
        ("COUNTRY_CODE", Str(countryCode)),
        ("CUSTOMER_NAME", Str(customerName)),
        ("COMPANY_NAME", Str(companyName)),
        ("FIRST_NAME", Str(firstName)),
        ("LAST_NAME", Str(lastName)),
        ("MIDDLE_NAMES", Str(middleNames)),
        ("GENDER_CODE", Str(genderCode)),
        ("PRIME_BRANCH_ID", Str(primeBranchId)),
        ("RELATIONSHIP_MGR_ID", Str(relationshipMgrId)),
        ("ACQUISITION_DATE", Str(acquisitionDate)),
        ("REGISTERED_NUMBER", Str(registeredNumber)),
        ("INCORPORATION_DATE", Str(incorporationDate)),
        ("INCORPORATION_COUNTRY_CODE", Str(incorporationCountryCode)),
        ("MARITAL_STATUS", Str(maritalStatus)),
        ("OCCUPATION", Str(occupation)),
        ("EMPLOYMENT_STATUS", Str(employmentStatus)),
        ("DATE_OF_BIRTH", Str(dateOfBirth)),
        ("PLACE_OF_BIRTH", Str(placeOfBirth)),
        ("RESIDENCE_FLAG", Str(residenceFlag)),
        ("SPECIAL_ATTENTION_FLAG", Str(specialAttentionFlag)),
        ("DECEASED_FLAG", Str(deceasedFlag)),
        ("BANKRUPT_FLAG", Str(bankruptFlag)),
        ("FACE_TO_FACE_FLAG", Str(faceToFaceFlag)),
        ("CUSTOMER_CHANNEL_REMOTE_FLAG", Str(customerChannelRemoteFlag)),
        ("ADVERSE_MEDIA_FLAG_INGESTED", Str(adverseMediaFlagIngested)),
        ("WIRE_IN_NUMBER", Str(wireInNumber)),
        ("WIRE_OUT_NUMBER", Str(wireOutNumber)),
        ("WIRE_IN_VOLUME", Str(wireInVolume)),
        ("WIRE_OUT_VOLUME", Str(wireOutVolume)),
        ("CASH_IN_VOLUME", Str(cashInVolume)),
        ("CASH_OUT_VOLUME", Str(cashOutVolume)),
        ("CHECK_IN_VOLUME", Str(checkInVolume)),
        ("CHECK_OUT_VOLUME", Str(checkOutVolume)),
        ("SOURCE_OF_FUNDS", Str(sourceOfFunds)),
        ("TAX_NUMBER", Str(taxNumber)),
        ("TAX_NUMBER_ISSUED_BY", Str(taxNumberIssuedBy)),
        ("COMPANY_FORM", Str(companyForm)),
        ("BUSINESS_TYPE", Str(businessType)),
        ("VAT_NUMBER", Str(vatNumber)),
        ("PERSON_TITLE", Str(personTitle)),
        ("TAX_NUMBER_TYPE", Str(taxNumberType)),
        ("OVERRIDE_CITY", Str(overrideCity)),
        ("OVERRIDE_ADDRESS", Str(overrideAddress)),
        ("POSTAL_CODE", Str(postalCode)),
        ("IS_COMPANY", Bool(isCompany)),
        ("EMAIL_ADDRESS", Str(emailAddress)),
        ("PHONE_COUNTRY_CODE", Str(phoneCountryCode)),
        ("PHONE_AREA_CODE", Str(phoneAreaCode)),
        ("PHONE_NUMBER", Str(phoneNumber)),
        ("PHONE_EXTENSION", Str(phoneExtension)),
        ("ROLE", Str(role)),
        ("NETWORK_ID", networkId)
      ]
    }
  }

  // ---------------------------------------------------------------------------
  // Deterministic derived fields
  // ---------------------------------------------------------------------------

  /** A company's legal name: the company form is appended unless the name
      already contains it, ignoring case. */
  function CompanyLegalName(name: string, form: string): (r: string)
    ensures form == "" || Contains(Lower(name), Lower(form)) ==> r == name
    ensures form != "" && !Contains(Lower(name), Lower(form)) ==> r == name + " " + form
    // afterwards the name always carries the form
    ensures form != "" ==> Contains(Lower(r), Lower(form))
  {
    if form != "" && !Contains(Lower(name), Lower(form)) then
      LowerConcat(name + " ", form);
      ContainsSuffix(Lower(name + " "), Lower(form));
      name + " " + form
    else name
  }

  /** The person title that follows the resolved gender code. */
  function PersonTitle(genderCode: string): (r: string)
    ensures r == "Mr" <==> genderCode == "GN0001"
    ensures r == "Ms" <==> genderCode == "GN0002"
    ensures r == "" <==> genderCode != "GN0001" && genderCode != "GN0002"
  {
    if genderCode == "GN0001" then "Mr" else if genderCode == "GN0002" then "Ms" else ""
  }

  /** The number of occurrences of `c` in `s`. */
  function Occurrences(s: string, c: char): nat {
    if |s| == 0 then 0 else (if s[0] == c then 1 else 0) + Occurrences(s[1..], c)
  }

  lemma {:induction false} OccurrencesConcat(a: string, b: string, c: char)
    ensures Occurrences(a + b, c) == Occurrences(a, c) + Occurrences(b, c)
  {
    if |a| > 0 {
      assert (a + b)[0] == a[0];
      assert (a + b)[1..] == a[1..] + b;
      OccurrencesConcat(a[1..], b, c);
    } else {
      assert a + b == b;
    }
  }

  lemma {:induction false} NoOccurrences(s: string, c: char)
    requires c !in s
    ensures Occurrences(s, c) == 0
  {
    if |s| > 0 {
      NoOccurrences(s[1..], c);
    }
  }

  /** `_generate_smart_email(first, last, company, is_company)`: every
      address has exactly one '@'. A company with a name gets "contact@", a
      lower-case letters-only label and ".com". Anyone else gets a local part
      of lower-case letters and dots, then "@example.com". */
  function SmartEmail(first: string, last: string, company: string, isCompany: bool): (r: string)
    ensures Occurrences(r, '@') == 1
    ensures isCompany && company != "" ==>
              |r| >= 12 && r[..8] == "contact@" && r[|r| - 4..] == ".com" && AllLowerLetters(r[8..|r| - 4])
    ensures !(isCompany && company != "") ==>
              |r| >= 13 && r[|r| - 12..] == "@example.com"
              && forall i :: 0 <= i < |r| - 12 ==> r[i] == '.' || 'a' <= r[i] <= 'z'
  {
    if isCompany && company != "" then
      var letters := LettersOnly(Split(company, ' ')[0]);
      LowerOfLetters(letters);
      CompanyAddress(Lower(letters));
      "contact@" + Lower(letters) + ".com"
    else
      var f, l := Lower(LettersOnly(first)), Lower(LettersOnly(last));
      LowerOfLetters(LettersOnly(first));
      LowerOfLetters(LettersOnly(last));
      PersonAddress(f, l);
      f + "." + l + "@example.com"
  }

  /** An address made of two '@'-free parts has exactly one '@'. */
  lemma OneAt(local: string, domain: string)
    requires '@' !in local && '@' !in domain
    ensures Occurrences(local + "@" + domain, '@') == 1
  {
    NoOccurrences(local, '@');
    NoOccurrences(domain, '@');
    OccurrencesConcat(local, "@", '@');
    OccurrencesConcat(local + "@", domain, '@');
  }

  /** A company address around a lower-case host label. */
  lemma CompanyAddress(host: string)
    requires AllLowerLetters(host)
    ensures var r := "contact@" + host + ".com";
            && Occurrences(r, '@') == 1
            && |r| >= 12 && r[..8] == "contact@" && r[|r| - 4..] == ".com" && r[8..|r| - 4] == host
  {
    assert forall i :: 0 <= i < |host| ==> host[i] != '@';
    var r := "contact@" + host + ".com";
    assert r == "contact" + "@" + (host + ".com");
    OneAt("contact", host + ".com");
  }

  /** A person address around two lower-case names. */
  lemma PersonAddress(f: string, l: string)
    requires AllLowerLetters(f) && AllLowerLetters(l)
    ensures var r := f + "." + l + "@example.com";
            && Occurrences(r, '@') == 1
            && |r| >= 13 && r[|r| - 12..] == "@example.com"
            && forall i :: 0 <= i < |r| - 12 ==> r[i] == '.' || 'a' <= r[i] <= 'z'
  {
    assert forall i :: 0 <= i < |f| ==> f[i] != '@';
    assert forall i :: 0 <= i < |l| ==> l[i] != '@';
    assert f + "." + l + "@example.com" == (f + "." + l) + "@" + "example.com";
    OneAt(f + "." + l, "example.com");
  }

  /** A person address is two lower-case letters-only names joined by a dot,
      then "@example.com". */
  lemma PersonEmailWellFormed(first: string, last: string, company: string, isCompany: bool)
    requires !(isCompany && company != "")
    ensures var r := SmartEmail(first, last, company, isCompany);
            var f, l := Lower(LettersOnly(first)), Lower(LettersOnly(last));
            && Occurrences(r, '@') == 1
            && r == f + "." + l + "@example.com"
            && AllLowerLetters(f) && AllLowerLetters(l)
  {
    LowerOfLetters(LettersOnly(first));
    LowerOfLetters(LettersOnly(last));
  }

  /** `_resolve_flag(val, default)`: a cleaned Y or N is kept, anything else
      gets the default. */
  function ResolveFlag(val: Option<string>, default: string): (r: string)
    ensures Present(val) && Clean(val.value) in {"Y", "N"} ==> r == Clean(val.value)
    ensures !(Present(val) && Clean(val.value) in {"Y", "N"}) ==> r == default
    ensures default in {"Y", "N"} ==> r in {"Y", "N"}
  {
    if !Present(val) then default
    else
      var clean := Clean(val.value);
      if clean == "Y" || clean == "N" then clean else default
  }

  /** The tax-number types per country: (company, person). */
  const TaxTypes: map<string, (string, string)> := map[
    "US" := ("EIN", "SSN"),
    "GB" := ("UTR", "NINO"),
    "DE" := ("STEUERNUMMER", "STEUERID"),
    "FR" := ("SIREN", "SPI"),
    "IT" := ("PIVA", "CF"),
    "ES" := ("CIF", "NIF")
  ]

  /** The tax-number type chain of `generate_single_profile`. */
  function TaxNumberType(country: string, isCompany: bool): (r: string)
    ensures country in TaxTypes ==> r == if isCompany then TaxTypes[country].0 else TaxTypes[country].1
    ensures country !in TaxTypes ==> r == "TIN"
  {
    if country == "US" then (if isCompany then "EIN" else "SSN")
    else if country == "GB" then (if isCompany then "UTR" else "NINO")
    else if country == "DE" then (if isCompany then "STEUERNUMMER" else "STEUERID")
    else if country == "FR" then (if isCompany then "SIREN" else "SPI")
    else if country == "IT" then (if isCompany then "PIVA" else "CF")
    else if country == "ES" then (if isCompany then "CIF" else "NIF")
    else "TIN"
  }

  /** The dialling codes the generator knows. */
  const PhoneCodes: map<string, string> := map[
    "US" := "1", "CA" := "1", "GB" := "44", "DE" := "49", "FR" := "33", "IT" := "39",
    "ES" := "34", "NL" := "31", "CH" := "41", "AU" := "61", "JP" := "81", "CN" := "86",
    "BR" := "55", "MX" := "52", "IN" := "91", "TR" := "90", "RO" := "40", "RU" := "7"
  ]

  /** `profile.get('phone_country_code') or phone_codes.get(country, '1')`:
      never empty. */
  function PhoneCountryCode(explicit: Option<string>, country: string): (r: string)
    ensures Present(explicit) ==> r == explicit.value
    ensures !Present(explicit) && country in PhoneCodes ==> r == PhoneCodes[country]
    ensures !Present(explicit) && country !in PhoneCodes ==> r == "1"
    ensures r != ""
  {
    if Present(explicit) then explicit.value
    else if country in PhoneCodes then PhoneCodes[country]
    else "1"
  }

  // ---------------------------------------------------------------------------
  // One profile
  // ---------------------------------------------------------------------------

  /** The Company/Person branch: taken from the raw input alone. */
  predicate IsCompanyInput(p: Profile) {
    Get(p.fields, "type") == Some("C")
  }

  /** The customer type code: the raw "type" resolved against the table, "C" when absent. */
  function TypeCode(p: Profile, t: CustomerTables): string {
    ResolveValue(Get(p.fields, "type"), t.customerTypes.mapping, t.customerTypes.codes, "C", 0)
  }

  /** `generate_single_profile(profile)`: the context keeps the profile's
      account blueprint for the account stage, always has a dialling code and
      a one-'@' address, and cuts the business segment to 50 characters. */
  function SingleProfile(p: Profile, t: CustomerTables, d: CustomerDraws): (c: Customer)
    ensures c.accountsBlueprint == p.accounts
    ensures c.phoneCountryCode != "" && Occurrences(c.emailAddress, '@') == 1
    ensures |c.businessSegment1| <= 50
  {
    var f := p.fields;
    var country := ResolveValue(Get(f, "country"), t.countries.mapping, t.countries.codes, "US", 0);
    var isCompany := IsCompanyInput(p);
    var custType := TypeCode(p, t);
    var companyForm := if isCompany then GetOr(f, "company_form", "") else "";
    var firstName := if isCompany then "" else GetOrElse(f, "first_name", d.firstName);
    var lastName := if isCompany then "" else GetOrElse(f, "last_name", d.lastName);
    var legalName :=
      if isCompany then CompanyLegalName(GetOrElse(f, "legal_name", GetOrElse(f, "name", d.companyName)), companyForm)
      else firstName + " " + lastName;
    var genderInput := GetOr(f, "gender", if d.maleCoin then "Male" else "Female");
    var genderCode :=
      if isCompany then "" else ResolveValue(Some(genderInput), t.genders.mapping, t.genders.codes, "", d.genderPick);
    var registeredNumber :=
      if isCompany then GetOrElse(f, "registered_number", "REG-" + Decimal(RandInt(10000, 99999, d.registeredNumber)))
      else "";
    var branch := if |t.branchIds| > 0 then Choice(t.branchIds, d.branchPick) else "8";
    var employee := if |t.employeeIds| > 0 then Choice(t.employeeIds, d.employeePick) else "000001";
    Customer(
      id := "CUST-" + Decimal(RandInt(100000, 999999, d.idNumber)),
      accountsBlueprint := p.accounts,
      orgUnit := ResolveValue(Get(f, "org_unit"), t.orgUnits.mapping, t.orgUnits.codes, "EUR", 0),
      customerTypeCode := custType,
      customerCategoryCode := ResolveValue(Get(f, "category"), t.categories.mapping, t.categories.codes, "RETAIL", 0),
      customerSegment1 := ResolveValue(Get(f, "segment"), t.segments.mapping, t.segments.codes,
                                       if isCompany then "SME" else "PERS", 0),
      businessSegment1 := Take(GetOr(f, "business_segment", ""), 50),
      countryCode := country,
      customerName := legalName,
      companyName := if isCompany then legalName else "",
      firstName := firstName,
      lastName := lastName,
      middleNames := GetOr(f, "middle_names", ""),
      genderCode := genderCode,
      primeBranchId := ZFill(branch, 6),
      relationshipMgrId := ZFill(employee, 6),
      acquisitionDate := d.acquisitionDate,
      registeredNumber := registeredNumber,
      incorporationDate := if isCompany then GetOrElse(f, "incorporation_date", d.incorporationDate) else "",
      incorporationCountryCode := if isCompany then country else "",
      maritalStatus := GetOr(f, "marital_status", if isCompany then "" else "Single"),
      occupation := GetOr(f, "occupation", if isCompany then "" else "Employed"),
      employmentStatus := if isCompany then "" else "EMPLOYED",
      dateOfBirth := GetOrElse(f, "date_of_birth", if isCompany then "" else d.dateOfBirth),
      placeOfBirth := GetOrElse(f, "place_of_birth", if isCompany then "" else d.birthCity),
      residenceFlag := ResolveFlag(Get(f, "residence_flag"), "Y"),
      specialAttentionFlag := ResolveFlag(Get(f, "special_attention_flag"), "N"),
      deceasedFlag := ResolveFlag(Get(f, "deceased_flag"), "N"),
      bankruptFlag := ResolveFlag(Get(f, "bankrupt_flag"), "N"),
      faceToFaceFlag := ResolveFlag(Get(f, "face_to_face_flag"), "N"),
      customerChannelRemoteFlag := "N",
      adverseMediaFlagIngested := "N",
      wireInNumber := GetOr(f, "wire_in_number", ""),
      wireOutNumber := GetOr(f, "wire_out_number", ""),
      wireInVolume := GetOr(f, "wire_in_volume", ""),
      wireOutVolume := GetOr(f, "wire_out_volume", ""),
      cashInVolume := GetOr(f, "cash_in_volume", ""),
      cashOutVolume := GetOr(f, "cash_out_volume", ""),
      checkInVolume := GetOr(f, "check_in_volume", ""),
      checkOutVolume := GetOr(f, "check_out_volume", ""),
      sourceOfFunds := GetOr(f, "source_of_funds", if isCompany then "TRADING" else "EMPLOYMENT"),
      taxNumber := GetOrElse(f, "tax_number", country + "-" + Decimal(RandInt(0, 999999999, d.taxDigits))),
      taxNumberIssuedBy := GetOr(f, "tax_number_issued_by", country),
      companyForm := companyForm,
      businessType := if isCompany then GetOr(f, "industry", "Trading") else "",
      vatNumber := GetOr(f, "vat_number", ""),
      personTitle := if isCompany then "" else PersonTitle(genderCode),
      taxNumberType := TaxNumberType(country, isCompany),
      overrideCity := GetOrElse(f, "city", d.city),
      overrideAddress := GetOrElse(f, "street_address", d.streetAddress),
      postalCode := GetOrElse(f, "postal_code", d.postcode),
      isCompany := isCompany,
      emailAddress := SmartEmail(firstName, lastName, legalName, isCompany),
      phoneCountryCode := PhoneCountryCode(Get(f, "phone_country_code"), country),
      phoneAreaCode := ZFill(Decimal(RandInt(10, 999, d.phoneArea)), 3),
      phoneNumber := Decimal(RandInt(1000000, 9999999, d.phoneNumber)),
      phoneExtension := "",
      role := GetOr(f, "role", "STANDARD"),
      networkId := if "network_id" in f then Str(f["network_id"]) else Null)
  }

  /** Every customer ID is "CUST-" followed by the drawn six-digit number. */
  lemma ProfileIdTagged(p: Profile, t: CustomerTables, d: CustomerDraws)
    ensures "CUST-" <= SingleProfile(p, t, d).id
  {
  }

  /** The Company/Person flag is exactly "the raw type is C"; the resolved
      display code is computed separately and cannot change it. */
  lemma KindFromRawInputOnly(p: Profile, t: CustomerTables, d: CustomerDraws)
    ensures var c := SingleProfile(p, t, d);
            && (c.isCompany <==> Get(p.fields, "type") == Some("C"))
            && c.customerTypeCode == TypeCode(p, t)
  {
  }

  /** A Person whose type code the table does not know still resolves to the
      display code "C", yet stays a Person. */
  lemma DefaultTypeCodeKeepsPerson(p: Profile, t: CustomerTables, d: CustomerDraws)
    requires Get(p.fields, "type") == Some("P")
    requires "P" !in t.customerTypes.codes && "P" !in t.customerTypes.mapping
    ensures SingleProfile(p, t, d).customerTypeCode == "C"
    ensures !SingleProfile(p, t, d).isCompany
  {
    UnknownTypeCodeDefaults(p, t);
    KindFromRawInputOnly(p, t, d);
  }

  lemma UnknownTypeCodeDefaults(p: Profile, t: CustomerTables)
    requires Get(p.fields, "type") == Some("P")
    requires "P" !in t.customerTypes.codes && "P" !in t.customerTypes.mapping
    ensures TypeCode(p, t) == "C"
  {
    CleanFixed("P");
  }

  /** A Company has no personal identity fields, its name carries its
      company form, and it is incorporated in its country. */
  lemma CompanyIdentity(p: Profile, t: CustomerTables, d: CustomerDraws)
    requires IsCompanyInput(p)
    ensures var c := SingleProfile(p, t, d);
            && c.firstName == "" && c.lastName == "" && c.genderCode == "" && c.personTitle == ""
            && c.companyName == c.customerName
            && c.incorporationCountryCode == c.countryCode
            && (c.companyForm != "" ==> Contains(Lower(c.customerName), Lower(c.companyForm)))
  {
  }

  /** A Person is named by first and last name, has no company fields, and is
      titled after the resolved gender code. */
  lemma PersonIdentity(p: Profile, t: CustomerTables, d: CustomerDraws)
    requires !IsCompanyInput(p)
    ensures var c := SingleProfile(p, t, d);
            && c.customerName == c.firstName + " " + c.lastName
            && c.companyName == "" && c.companyForm == "" && c.registeredNumber == ""
            && c.incorporationDate == "" && c.incorporationCountryCode == ""
            && (c.personTitle == "Mr" <==> c.genderCode == "GN0001")
            && (c.personTitle == "Ms" <==> c.genderCode == "GN0002")
  {
  }

  /** Every resolved flag is Y or N, whatever the profile says. */
  lemma FlagsAreYesNo(p: Profile, t: CustomerTables, d: CustomerDraws)
    ensures var c := SingleProfile(p, t, d);
            && c.residenceFlag in {"Y", "N"} && c.specialAttentionFlag in {"Y", "N"}
            && c.deceasedFlag in {"Y", "N"} && c.bankruptFlag in {"Y", "N"}
            && c.faceToFaceFlag in {"Y", "N"}
  {
  }

  // ---------------------------------------------------------------------------
  // Schema rows
  // ---------------------------------------------------------------------------

  /** The value `generate_rows` chooses for an upper-cased column name. */
  function CustomerValue(c: Customer, colName: string, colType: string, runTimestamp: string): (v: Value)
    ensures colName != "ORGUNIT_CODE" && Contains(colType, "TIMESTAMP") ==> v == Str(runTimestamp)
    ensures colName in {"CUSTOMER_SOURCE_UNIQUE_ID", "CUSTOMER_SOURCE_REF_ID"} && !Contains(colType, "TIMESTAMP") ==>
              v == Str(c.id)
  {
    if colName == "ORGUNIT_CODE" then Str(c.orgUnit)
    else if colName == "RUN_TIMESTAMP" || Contains(colType, "TIMESTAMP") then Str(runTimestamp)
    else if colName == "CUSTOMER_STATUS_CODE" then Str("ACTIVE")
    else if colName == "EMPLOYEE_FLAG" then Str("N")
    else if colName == "CUSTOMER_SOURCE_UNIQUE_ID" || colName == "CUSTOMER_SOURCE_REF_ID" then Str(c.id)
    else if colName == "ADDRESS" then Str(c.overrideAddress)
    else if colName == "CITY" then Str(c.overrideCity)
    else if colName == "POSTAL_CODE" then Str(c.postalCode)
    else if Lookup(c.Fields(), colName).Some? then Lookup(c.Fields(), colName).value
    else if Contains(colName, "EMAIL") then Str(c.emailAddress)
    else if colName == "COUNTRY_OF_RESIDENCE" || colName == "COUNTRY_OF_ORIGIN" || colName == "NATIONALITY_CODE" then
      Str(c.countryCode)
    else Str("")
  }

  /** One cell: the chosen value, the placeholder if it is empty and the
      column is mandatory, cut to the declared length. */
  function CustomerCell(c: Customer, col: Column, runDate: string): (r: string)
    ensures Bounded(col.colType) ==> |r| <= LengthBound(col.colType).value
    ensures col.mandatory == "YES" && LengthBound(col.colType) != Some(0) ==> r != ""
  {
    var v := CustomerValue(c, Upper(col.name), col.colType, runDate + "000000");
    MandatoryCellNonEmpty(v, Contains(col.colType, "NUMBER"), col.colType);
    EnforceLength(Render(FillMandatory(v, col.mandatory == "YES", Contains(col.colType, "NUMBER"))), col.colType)
  }

  /** The row of one customer: a cell per column, in column order. */
  function CustomerRow(c: Customer, cols: seq<Column>, runDate: string): (r: seq<string>)
    ensures |r| == |cols|
  {
    MapSeq(cols, CellBuilder(c, runDate))
  }

  function CellBuilder(c: Customer, runDate: string): Column -> string {
    col => CustomerCell(c, col, runDate)
  }

  /** Every cell respects its column: an empty mandatory value becomes "0"
      for a NUMBER type and "N" otherwise, and a bounded STRING type is
      never exceeded. */
  lemma CustomerCellFacts(c: Customer, col: Column, runDate: string)
    ensures var v := CustomerValue(c, Upper(col.name), col.colType, runDate + "000000");
            var cell := CustomerCell(c, col, runDate);
            && (col.mandatory == "YES" && !Truthy(v) ==>
                  cell == EnforceLength(if Contains(col.colType, "NUMBER") then "0" else "N", col.colType))
            && (Truthy(v) || col.mandatory != "YES" ==> cell == EnforceLength(Render(v), col.colType))
            && (Bounded(col.colType) ==> |cell| <= LengthBound(col.colType).value)
            && (col.mandatory == "YES" && LengthBound(col.colType) != Some(0) ==> cell != "")
  {
    var v := CustomerValue(c, Upper(col.name), col.colType, runDate + "000000");
    MandatoryCellNonEmpty(v, Contains(col.colType, "NUMBER"), col.colType);
  }

  /** The customer-ID columns carry the customer's ID. */
  lemma CustomerIdColumn(c: Customer, col: Column, runDate: string)
    requires Upper(col.name) == "CUSTOMER_SOURCE_UNIQUE_ID" || Upper(col.name) == "CUSTOMER_SOURCE_REF_ID"
    requires !Contains(col.colType, "TIMESTAMP") && c.id != ""
    ensures CustomerCell(c, col, runDate) == EnforceLength(c.id, col.colType)
  {
    assert CustomerValue(c, Upper(col.name), col.colType, runDate + "000000") == Str(c.id);
  }

  /** Builds one row column by column (the inner loop of `generate_rows`). */
  method BuildCustomerRow(c: Customer, spec: Spec, runDate: string) returns (row: seq<string>)
    requires spec.WellFormed()
    ensures row == CustomerRow(c, Columns(spec), runDate)
  {
    row := [];
    var runTimestamp := runDate + "000000";
    ghost var cols := Columns(spec);
    for j := 0 to |spec.columns|
      invariant row == CustomerRow(c, cols[..j], runDate)
    {
      var colName := Upper(spec.columns[j]);
      var colType := spec.types[j];
      var val := CustomerValue(c, colName, colType, runTimestamp);
      if spec.mandatory[j] == "YES" && !Truthy(val) {
        val := Str(if Contains(colType, "NUMBER") then "0" else "N");
      }
      assert EnforceLength(Render(val), colType) == CustomerCell(c, cols[j], runDate);
      MapSeqSnoc(cols[..j], cols[j], CellBuilder(c, runDate));
      TakeSnoc(cols, j);
      row := row + [EnforceLength(Render(val), colType)];
    }
    TakeAll(cols);
  }

  /** The contexts `generate_rows` builds: one per profile, in order; the i-th
      profile consumes the i-th draws. */
  function Contexts(profiles: seq<Profile>, t: CustomerTables, draw: nat -> CustomerDraws): (cs: seq<Customer>)
    ensures |cs| == |profiles|
  {
    MapWithIndex(profiles, ProfileBuilder(t, draw))
  }

  /** `generate_single_profile` applied to the i-th profile with the i-th draws. */
  function ProfileBuilder(t: CustomerTables, draw: nat -> CustomerDraws): (nat, Profile) -> Customer {
    (i: nat, p: Profile) => SingleProfile(p, t, draw(i))
  }

  /** One row per context, in order. */
  function CustomerRows(cs: seq<Customer>, cols: seq<Column>, runDate: string): (rows: seq<seq<string>>)
    ensures |rows| == |cs|
  {
    MapSeq(cs, RowBuilder(cols, runDate))
  }

  function RowBuilder(cols: seq<Column>, runDate: string): Customer -> seq<string> {
    c => CustomerRow(c, cols, runDate)
  }

  /** `CustomerGenerator.generate_rows(profiles, run_date)` */
  method GenerateRows(profiles: seq<Profile>, t: CustomerTables, runDate: string, draw: nat -> CustomerDraws)
    returns (contexts: seq<Customer>, rows: seq<seq<string>>)
    requires t.spec.WellFormed()
    ensures contexts == Contexts(profiles, t, draw)
    ensures rows == CustomerRows(contexts, Columns(t.spec), runDate)
  {
    contexts, rows := [], [];
    ghost var cols := Columns(t.spec);
    for i := 0 to |profiles|
      invariant contexts == Contexts(profiles[..i], t, draw)
      invariant rows == CustomerRows(contexts, cols, runDate)
    {
      var ctx := SingleProfile(profiles[i], t, draw(i));
      MapWithIndexSnoc(profiles[..i], profiles[i], ProfileBuilder(t, draw));
      TakeSnoc(profiles, i);
      var row := BuildCustomerRow(ctx, t.spec, runDate);
      MapSeqSnoc(contexts, ctx, RowBuilder(cols, runDate));
      contexts := contexts + [ctx];
      rows := rows + [row];
    }
    TakeAll(profiles);
  }
}
