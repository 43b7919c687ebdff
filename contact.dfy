/** The contact record of a domain registration: its fields, the checks run
    when it is built, and its conversion to prefixed request parameters
    (`RegistrantFirstName`, `AdminPhone`, ...). */
module Contacts {
  import opened Wrappers
  import opened Exceptions
  import opened PyStr
  import opened Regex
  import opened Dicts
  import opened Camel

  /** The data attributes of a contact. Every one may be None. */
  datatype Fields = Fields(
    organizationName: Option<string>,
    jobTitle: Option<string>,
    firstName: Option<string>,
    lastName: Option<string>,
    address1: Option<string>,
    address2: Option<string>,
    city: Option<string>,
    stateProvince: Option<string>,
    stateProvinceChoice: Option<string>,
    postalCode: Option<string>,
    country: Option<string>,
    phone: Option<string>,
    phoneExt: Option<string>,
    fax: Option<string>,
    emailAddress: Option<string>)

  /** Python truthiness of an optional string: neither None nor empty. */
  predicate Truthy(v: Option<string>) { v.Some? && v.value != "" }

  /** `getattr(contact, name)` for the data attributes. */
  function Lookup(f: Fields, name: string): Option<string>
  {
    if name == "organization_name" then f.organizationName
    else if name == "job_title" then f.jobTitle
    else if name == "first_name" then f.firstName
    else if name == "last_name" then f.lastName
    else if name == "address1" then f.address1
    else if name == "address2" then f.address2
    else if name == "city" then f.city
    else if name == "state_province" then f.stateProvince
    else if name == "state_province_choice" then f.stateProvinceChoice
    else if name == "postal_code" then f.postalCode
    else if name == "country" then f.country
    else if name == "phone" then f.phone
    else if name == "phone_ext" then f.phoneExt
    else if name == "fax" then f.fax
    else if name == "email_address" then f.emailAddress
    else None
  }

  /** Unfolds `Lookup` once per attribute name, for the proofs that need the
      field behind a particular name. */
  lemma LookupNames(f: Fields)
    ensures Lookup(f, "organization_name") == f.organizationName
    ensures Lookup(f, "job_title") == f.jobTitle
    ensures Lookup(f, "first_name") == f.firstName
    ensures Lookup(f, "last_name") == f.lastName
    ensures Lookup(f, "address1") == f.address1
    ensures Lookup(f, "address2") == f.address2
    ensures Lookup(f, "city") == f.city
    ensures Lookup(f, "state_province") == f.stateProvince
    ensures Lookup(f, "state_province_choice") == f.stateProvinceChoice
    ensures Lookup(f, "postal_code") == f.postalCode
    ensures Lookup(f, "country") == f.country
    ensures Lookup(f, "phone") == f.phone
    ensures Lookup(f, "phone_ext") == f.phoneExt
    ensures Lookup(f, "fax") == f.fax
    ensures Lookup(f, "email_address") == f.emailAddress
  {
  }

  // ---------------------------------------------------------------------------
  // Building a contact from keyword arguments

  /** The keyword arguments of `Contact(...)`; a value may be None. */
  type Kwargs = map<string, Option<string>>

  /** `kwargs.get(key)` */
  function Get(kwargs: Kwargs, key: string): Option<string>
  {
    if key in kwargs then kwargs[key] else None
  }

  /** The arguments read with `kwargs[key]`, in the order they are read. */
  const ConstructorKeys: seq<string> :=
    ["first_name", "last_name", "address1", "city", "state_province",
     "postal_code", "country", "phone"]

  /** The arguments read with `kwargs.get(key)`. */
  const OptionalKeys: seq<string> :=
    ["organization_name", "job_title", "address2", "state_province_choice",
     "phone_ext", "fax"]

  /** The fields `Contact.__init__` reads from its keyword arguments: the
      missing argument read first raises KeyError, and the e-mail address is
      `email` when that is truthy and `email_address` otherwise. */
  function FieldsFromKwargs(kwargs: Kwargs): Result<Fields, Error>
  {
    if "first_name" !in kwargs then Failure(KeyError("first_name"))
    else if "last_name" !in kwargs then Failure(KeyError("last_name"))
    else if "address1" !in kwargs then Failure(KeyError("address1"))
    else if "city" !in kwargs then Failure(KeyError("city"))
    else if "state_province" !in kwargs then Failure(KeyError("state_province"))
    else if "postal_code" !in kwargs then Failure(KeyError("postal_code"))
    else if "country" !in kwargs then Failure(KeyError("country"))
    else if "phone" !in kwargs then Failure(KeyError("phone"))
    else if !Truthy(Get(kwargs, "email")) && "email_address" !in kwargs then
      Failure(KeyError("email_address"))
    else
      Success(Fields(
        organizationName := Get(kwargs, "organization_name"),
        jobTitle := Get(kwargs, "job_title"),
        firstName := kwargs["first_name"],
        lastName := kwargs["last_name"],
        address1 := kwargs["address1"],
        address2 := Get(kwargs, "address2"),
        city := kwargs["city"],
        stateProvince := kwargs["state_province"],
        stateProvinceChoice := Get(kwargs, "state_province_choice"),
        postalCode := kwargs["postal_code"],
        country := kwargs["country"],
        phone := kwargs["phone"],
        phoneExt := Get(kwargs, "phone_ext"),
        fax := Get(kwargs, "fax"),
        emailAddress :=
          if Truthy(Get(kwargs, "email")) then Get(kwargs, "email")
          else kwargs["email_address"]))
  }

  /** The first required argument missing, in reading order, raises KeyError. */
  lemma FieldsFromKwargsFirstMissing(kwargs: Kwargs, i: nat)
    requires i < |ConstructorKeys| && ConstructorKeys[i] !in kwargs
    requires forall j | 0 <= j < i :: ConstructorKeys[j] in kwargs
    ensures FieldsFromKwargs(kwargs) == Failure(KeyError(ConstructorKeys[i]))
  {
    var ks := ConstructorKeys;
    assert ks[0] == "first_name" && ks[1] == "last_name" && ks[2] == "address1" && ks[3] == "city";
    assert ks[4] == "state_province" && ks[5] == "postal_code" && ks[6] == "country" && ks[7] == "phone";
  }

  /** `Contact(...)` reads its fields exactly when every required argument is
      there and an e-mail address is given as `email` (truthy) or
      `email_address`; with the rest present and no address, the KeyError
      names `email_address`. */
  lemma FieldsFromKwargsSucceeds(kwargs: Kwargs)
    ensures FieldsFromKwargs(kwargs).Success? <==>
      (forall k | k in ConstructorKeys :: k in kwargs)
      && (Truthy(Get(kwargs, "email")) || "email_address" in kwargs)
    ensures ((forall k | k in ConstructorKeys :: k in kwargs)
             && !Truthy(Get(kwargs, "email")) && "email_address" !in kwargs)
      ==> FieldsFromKwargs(kwargs) == Failure(KeyError("email_address"))
  {
  }

  /** Each required attribute of a built contact is the argument of the same
      name. */
  lemma FieldsFromKwargsRequired(kwargs: Kwargs)
    requires FieldsFromKwargs(kwargs).Success?
    ensures forall k | k in ConstructorKeys :: Lookup(FieldsFromKwargs(kwargs).value, k) == kwargs[k]
  {
    var f := FieldsFromKwargs(kwargs).value;
    forall k | k in ConstructorKeys ensures Lookup(f, k) == kwargs[k] {
      LookupNames(f);
    }
  }

  /** Each optional attribute of a built contact is the argument of the same
      name, None when it is absent; the e-mail address is `email` when that is
      truthy, else `email_address`. */
  lemma FieldsFromKwargsOptional(kwargs: Kwargs)
    requires FieldsFromKwargs(kwargs).Success?
    ensures forall i | 0 <= i < |OptionalKeys| :: Lookup(FieldsFromKwargs(kwargs).value, OptionalKeys[i]) == Get(kwargs, OptionalKeys[i])
    ensures Truthy(Get(kwargs, "email")) ==> FieldsFromKwargs(kwargs).value.emailAddress == kwargs["email"]
    ensures !Truthy(Get(kwargs, "email")) ==>
      FieldsFromKwargs(kwargs).value.emailAddress == kwargs["email_address"]
  {
    LookupNames(FieldsFromKwargs(kwargs).value);
  }

  // ---------------------------------------------------------------------------
  // Phone numbers

  /** The pattern `\+\d{3}\.\d{7}`. */
  const PhonePattern: seq<Atom> :=
    [Char('+'), Digit, Digit, Digit, Char('.'),
     Digit, Digit, Digit, Digit, Digit, Digit, Digit]

  /** `Contact._validate_phone_number`: the pattern matches at the start. */
  function IsPhoneNumber(number: string): (r: bool)
    ensures r ==> |number| >= |PhonePattern|
  {
    Match(PhonePattern, number)
  }

  /** A phone number is `+`, three digits, `.` and seven digits, followed by
      anything at all. */
  lemma PhoneNumberFormat(number: string)
    ensures IsPhoneNumber(number) <==>
      && |number| >= 12
      && number[0] == '+'
      && (forall i | 1 <= i < 4 :: IsDigit(number[i]))
      && number[4] == '.'
      && (forall i | 5 <= i < 12 :: IsDigit(number[i]))
  {
    MatchAt(PhonePattern, number);
    assert forall i | 0 <= i < 12 ::
      PhonePattern[i] == (if i == 0 then Char('+') else if i == 4 then Char('.') else Digit);
  }

  /** Whatever follows a valid number is accepted. */
  lemma PhoneNumberSuffix(number: string, rest: string)
    requires IsPhoneNumber(number)
    ensures IsPhoneNumber(number + rest)
  {
    MatchExtends(PhonePattern, number, rest);
  }

  // ---------------------------------------------------------------------------
  // Validation

  /** The fields `validate` requires, in the order it checks them. */
  const RequiredFields: seq<string> :=
    ["first_name", "last_name", "address1", "city", "state_province",
     "country", "postal_code", "phone", "email_address"]

  predicate AllRequired(f: Fields)
  {
    forall i | 0 <= i < |RequiredFields| :: Truthy(Lookup(f, RequiredFields[i]))
  }

  /** `RequiredFields[i]` is the first required field that is falsy. */
  predicate FirstFalsy(f: Fields, i: int)
  {
    && 0 <= i < |RequiredFields|
    && !Truthy(Lookup(f, RequiredFields[i]))
    && forall j | 0 <= j < i :: Truthy(Lookup(f, RequiredFields[j]))
  }

  predicate PhoneOk(v: Option<string>) { v.Some? && IsPhoneNumber(v.value) }

  /** A contact that `validate` accepts: every required field truthy, a valid
      phone, and a valid fax whenever a fax is given. */
  predicate IsValid(f: Fields)
  {
    AllRequired(f) && PhoneOk(f.phone) && (Truthy(f.fax) ==> PhoneOk(f.fax))
  }

  /** `o` is what `validate` does with `f`: the first falsy required field is
      reported by name; with all of them present the phone is checked, and then
      the fax, only when there is one. */
  ghost predicate ValidationResult(f: Fields, o: Outcome<Error>)
  {
    if !AllRequired(f) then
      exists i | FirstFalsy(f, i) :: o == Fail(ContactValidationError(RequiredFields[i] + " is required"))
    else if !PhoneOk(f.phone) then
      o == Fail(ContactValidationError("phone is not in valid format"))
    else if Truthy(f.fax) && !PhoneOk(f.fax) then
      o == Fail(ContactValidationError("fax is not in valid format"))
    else
      o == Pass
  }

  /** Validation has one outcome for each record, and passes exactly on the
      valid ones. */
  lemma ValidationDeterministic(f: Fields, o1: Outcome<Error>, o2: Outcome<Error>)
    requires ValidationResult(f, o1) && ValidationResult(f, o2)
    ensures o1 == o2
    ensures o1 == Pass <==> IsValid(f)
  {
    if !AllRequired(f) {
      var i :| FirstFalsy(f, i) && o1 == Fail(ContactValidationError(RequiredFields[i] + " is required"));
      var j :| FirstFalsy(f, j) && o2 == Fail(ContactValidationError(RequiredFields[j] + " is required"));
    }
  }

  /** A record without a fax never fails because of the fax. */
  lemma MissingFaxNeverFails(f: Fields, o: Outcome<Error>)
    requires ValidationResult(f, o)
    requires !Truthy(f.fax)
    ensures o != Fail(ContactValidationError("fax is not in valid format"))
  {
    if !AllRequired(f) {
      var i :| FirstFalsy(f, i) && o == Fail(ContactValidationError(RequiredFields[i] + " is required"));
      var msg := RequiredFields[i] + " is required";
      assert msg[|msg| - 1] == 'd';
    }
  }

  // ---------------------------------------------------------------------------
  // as_dict

  /** The non-callable attributes of a contact in `dir()` order (alphabetical,
      `_` before lower-case letters). */
  const AttributeNames: seq<string> :=
    ["_prefix", "address1", "address2", "city", "country", "email_address",
     "fax", "first_name", "job_title", "last_name", "organization_name",
     "phone", "phone_ext", "postal_code", "state_province",
     "state_province_choice"]

  /** The values of `AttributeNames` for a contact. */
  function AttributeValues(prefix: string, f: Fields): (vs: seq<Option<string>>)
    ensures |vs| == |AttributeNames|
  {
    [Some(prefix), f.address1, f.address2, f.city, f.country, f.emailAddress,
     f.fax, f.firstName, f.jobTitle, f.lastName, f.organizationName,
     f.phone, f.phoneExt, f.postalCode, f.stateProvince,
     f.stateProvinceChoice]
  }

  predicate IsPrivate(name: string) { |name| > 0 && name[0] == '_' }

  /** `as_dict` keeps an attribute that is public and not None. */
  predicate Exported(name: string, value: Option<string>)
  {
    !IsPrivate(name) && value.Some?
  }

  /** `AttributeValues` lines up with `AttributeNames`: the first value is
      the prefix, and each other one is the field of the name at its index. */
  lemma AttributeValuesNamed(prefix: string, f: Fields)
    ensures AttributeValues(prefix, f)[0] == Some(prefix)
    ensures forall i | 1 <= i < |AttributeNames| ::
      AttributeValues(prefix, f)[i] == Lookup(f, AttributeNames[i])
  {
    var vs := AttributeValues(prefix, f);
    forall i | 1 <= i < |AttributeNames| ensures vs[i] == Lookup(f, AttributeNames[i]) {
      if i < 8 {
        AttributeValuesNamedLow(prefix, f, i);
      } else {
        AttributeValuesNamedHigh(prefix, f, i);
      }
    }
  }

  // The two halves of `AttributeValuesNamed`: split at index 8 only so that
  // each proof compares an index against fewer names (the whole range at once
  // is costly for the verifier).
  lemma AttributeValuesNamedLow(prefix: string, f: Fields, i: nat)
    requires 1 <= i < 8
    ensures AttributeValues(prefix, f)[i] == Lookup(f, AttributeNames[i])
  {
    LookupNames(f);
  }

  lemma AttributeValuesNamedHigh(prefix: string, f: Fields, i: nat)
    requires 8 <= i < |AttributeNames|
    ensures AttributeValues(prefix, f)[i] == Lookup(f, AttributeNames[i])
  {
    LookupNames(f);
  }

  /** `first_name` becomes `FirstName`. */
  lemma FirstNameWord()
    ensures Camelize(AttributeNames[7]) == "FirstName"
  {
    var ws := ["first", "name"];
    assert IsWord(ws[0]) && IsWord(ws[1]);
    assert ws[1..] == [ws[1]] && Join(ws[1..], '_') == ws[1];
    assert Join(ws, '_') == ws[0] + "_" + ws[1] == AttributeNames[7];
    CamelizeSnakeCase(ws);
    assert CamelCase(ws[1..]) == Capitalized(ws[1]);
    assert Capitalized(ws[0]) == "First" && Capitalized(ws[1]) == "Name";
  }

  /** `first_name` with prefix `Admin` becomes `AdminFirstName`. */
  lemma FirstNameKey()
    ensures "Admin" + Camelize(AttributeNames[7]) == "AdminFirstName"
  {
    FirstNameWord();
  }

  /** Entries `m` to `n` that do not produce the key `k` leave it as the first
      `m` left it. */
  lemma {:induction false} ParamsUpToLaterMiss(prefix: string, names: seq<string>, values: seq<Option<string>>,
                                               m: nat, n: nat, k: string)
    requires |names| == |values| && m <= n <= |names|
    requires forall j | m <= j < n && Exported(names[j], values[j]) :: prefix + Camelize(names[j]) != k
    ensures k in ParamsUpTo(prefix, names, values, n) <==> k in ParamsUpTo(prefix, names, values, m)
    ensures k in ParamsUpTo(prefix, names, values, m) ==>
      ParamsUpTo(prefix, names, values, n)[k] == ParamsUpTo(prefix, names, values, m)[k]
    decreases n - m
  {
    if m < n {
      ParamsUpToLaterMiss(prefix, names, values, m, n - 1, k);
    }
  }

  /** The names after `first_name` in `dir()` order start with another
      letter, so their keys differ from `<prefix>FirstName`. */
  lemma LaterKeyNotFirstName(prefix: string, j: nat)
    requires 8 <= j < |AttributeNames|
    ensures prefix + Camelize(AttributeNames[j]) != prefix + "FirstName"
  {
    var name := AttributeNames[j];
    assert |name| > 0 && IsLower(name[0]) && name[0] != 'f';
    CamelizeShape(name);
    assert (prefix + Camelize(name))[|prefix|] != (prefix + "FirstName")[|prefix|];
  }

  /** A contact with a first name sends it as `<prefix>FirstName`: no name
      after `first_name` in `dir()` order camelizes to a key starting with `F`. */
  lemma FirstNameSent(prefix: string, f: Fields)
    requires f.firstName.Some?
    ensures prefix + "FirstName" in WireParams(prefix, f)
    ensures WireParams(prefix, f)[prefix + "FirstName"] == Str(f.firstName.value)
  {
    var vs, k := AttributeValues(prefix, f), prefix + "FirstName";
    FirstNameWord();
    assert vs[7] == f.firstName;
    assert Exported(AttributeNames[7], vs[7]);
    assert ParamsUpTo(prefix, AttributeNames, vs, 8) == ParamsUpTo(prefix, AttributeNames, vs, 7)[k := Str(f.firstName.value)];
    forall j | 8 <= j < |AttributeNames| && Exported(AttributeNames[j], vs[j])
      ensures prefix + Camelize(AttributeNames[j]) != k
    {
      LaterKeyNotFirstName(prefix, j);
    }
    ParamsUpToLaterMiss(prefix, AttributeNames, vs, 8, |AttributeNames|, k);
  }

  /** `address1`, which has no underscore, only changes case. */
  lemma Address1Key()
    ensures Camelize(AttributeNames[1]) == "Address1"
  {
    assert IsWord("address1");
    CamelizeWord("address1");
  }

  /** The parameters the first `n` of the `names` and their `values` give:
      each public one that is not None is stored under the prefix and its
      camelized name, a later one overwriting an earlier one with the same key. */
  function ParamsUpTo(prefix: string, names: seq<string>, values: seq<Option<string>>, n: nat): (d: Params)
    requires |names| == |values| && n <= |names|
  {
    if n == 0 then map[]
    else
      var d, i := ParamsUpTo(prefix, names, values, n - 1), n - 1;
      if Exported(names[i], values[i])
      then d[prefix + Camelize(names[i]) := Str(values[i].value)]
      else d
  }

  /** Every public name among the first `n` whose value is not None has its
      parameter. */
  lemma {:induction false} ParamsUpToComplete(prefix: string, names: seq<string>, values: seq<Option<string>>, n: nat)
    requires |names| == |values| && n <= |names|
    ensures forall i | 0 <= i < n && Exported(names[i], values[i]) ::
      prefix + Camelize(names[i]) in ParamsUpTo(prefix, names, values, n)
  {
    if n > 0 {
      ParamsUpToComplete(prefix, names, values, n - 1);
    }
  }

  /** Every parameter comes from a public name among the first `n` whose value
      is not None, and carries that value. */
  lemma {:induction false} ParamsUpToSound(prefix: string, names: seq<string>, values: seq<Option<string>>, n: nat)
    requires |names| == |values| && n <= |names|
    ensures forall k | k in ParamsUpTo(prefix, names, values, n) :: exists i | 0 <= i < n ::
      && Exported(names[i], values[i])
      && k == prefix + Camelize(names[i])
      && ParamsUpTo(prefix, names, values, n)[k] == Str(values[i].value)
  {
    if n > 0 {
      ParamsUpToSound(prefix, names, values, n - 1);
      var prev, i := ParamsUpTo(prefix, names, values, n - 1), n - 1;
      var d := ParamsUpTo(prefix, names, values, n);
      var key := prefix + Camelize(names[i]);
      forall k | k in d
        ensures exists j | 0 <= j < n ::
          Exported(names[j], values[j]) && k == prefix + Camelize(names[j]) && d[k] == Str(values[j].value)
      {
        if Exported(names[i], values[i]) && k == key {
          assert d[k] == Str(values[i].value);
        } else {
          assert k in prev && d[k] == prev[k];
          var j :| 0 <= j < n - 1 && Exported(names[j], values[j]) && k == prefix + Camelize(names[j])
            && prev[k] == Str(values[j].value);
        }
      }
    }
  }

  /** What `as_dict` returns for a contact with this prefix and these fields. */
  function WireParams(prefix: string, f: Fields): Params
  {
    ParamsUpTo(prefix, AttributeNames, AttributeValues(prefix, f), |AttributeNames|)
  }

  /** Every parameter of `as_dict` is the prefix followed by the camelized name
      of a public attribute that is not None, and carries that attribute's value
      unchanged; every such attribute has its parameter. `_prefix` (index 0)
      and None attributes contribute nothing. */
  lemma WireParamsContents(prefix: string, f: Fields)
    ensures var vs, d := AttributeValues(prefix, f), WireParams(prefix, f);
      && (forall i | 0 <= i < |AttributeNames| && Exported(AttributeNames[i], vs[i]) ::
            prefix + Camelize(AttributeNames[i]) in d)
      && (forall k | k in d :: exists i | 1 <= i < |AttributeNames| ::
            && vs[i].Some?
            && k == prefix + Camelize(AttributeNames[i])
            && d[k] == Str(vs[i].value))
  {
    var vs := AttributeValues(prefix, f);
    ParamsUpToComplete(prefix, AttributeNames, vs, |AttributeNames|);
    ParamsUpToSound(prefix, AttributeNames, vs, |AttributeNames|);
    assert !Exported(AttributeNames[0], vs[0]);
  }

  /** Every parameter name starts with the prefix. */
  lemma WireParamsPrefixed(prefix: string, f: Fields)
    ensures AllPrefixed(WireParams(prefix, f), prefix)
  {
    WireParamsContents(prefix, f);
    forall k | k in WireParams(prefix, f) ensures |prefix| <= |k| && k[..|prefix|] == prefix {
      var i :| 1 <= i < |AttributeNames| && k == prefix + Camelize(AttributeNames[i]);
    }
  }

  // ---------------------------------------------------------------------------
  // The contact object

  class Contact {
    var prefix: string
    const fields: Fields

    constructor (prefix: string, fields: Fields)
      ensures this.prefix == prefix && this.fields == fields
    {
      this.prefix := prefix;
      this.fields := fields;
    }

    /** `Contact(prefix, **kwargs)`: read the fields, then validate them. */
    static method Create(prefix: string := "", kwargs: Kwargs := map[]) returns (r: Result<Contact, Error>)
      ensures FieldsFromKwargs(kwargs).Failure? ==> r == Failure(FieldsFromKwargs(kwargs).error)
      ensures FieldsFromKwargs(kwargs).Success? ==>
        (r.Success? <==> IsValid(FieldsFromKwargs(kwargs).value))
      ensures FieldsFromKwargs(kwargs).Success? && r.Failure? ==>
        ValidationResult(FieldsFromKwargs(kwargs).value, Fail(r.error))
      ensures r.Success? ==>
        fresh(r.value) && r.value.prefix == prefix && r.value.fields == FieldsFromKwargs(kwargs).value
    {
      var read := FieldsFromKwargs(kwargs);
      if read.Failure? {
        return Failure(read.error);
      }
      var c := new Contact(prefix, read.value);
      var outcome := c.Validate();
      ValidationDeterministic(read.value, outcome, outcome);
      if outcome.Fail? {
        return Failure(outcome.error);
      }
      return Success(c);
    }

    /** `copy.copy(contact)` */
    method Copy() returns (c: Contact)
      ensures fresh(c) && c.prefix == prefix && c.fields == fields
    {
      c := new Contact(prefix, fields);
    }

    /** `Contact.validate` */
    method Validate() returns (r: Outcome<Error>)
      ensures ValidationResult(fields, r)
    {
      var i := 0;
      while i < |RequiredFields|
        invariant 0 <= i <= |RequiredFields|
        invariant forall j | 0 <= j < i :: Truthy(Lookup(fields, RequiredFields[j]))
      {
        var field := RequiredFields[i];
        if !Truthy(Lookup(fields, field)) {
          assert FirstFalsy(fields, i);
          return Fail(ContactValidationError(field + " is required"));
        }
        i := i + 1;
      }
      assert Lookup(fields, RequiredFields[7]) == fields.phone;
      if !IsPhoneNumber(fields.phone.value) {
        return Fail(ContactValidationError("phone is not in valid format"));
      }
      if Truthy(fields.fax) && !IsPhoneNumber(fields.fax.value) {
        return Fail(ContactValidationError("fax is not in valid format"));
      }
      return Pass;
    }

    /** `Contact.as_dict` */
    method AsDict() returns (d: Params)
      ensures d == WireParams(prefix, fields)
    {
      var values := AttributeValues(prefix, fields);
      d := map[];
      var i := 0;
      while i < |AttributeNames|
        invariant 0 <= i <= |AttributeNames|
        invariant d == ParamsUpTo(prefix, AttributeNames, values, i)
      {
        var attr, value := AttributeNames[i], values[i];
        i := i + 1;
        if IsPrivate(attr) || value.None? {
          continue;
        }
        d := d[prefix + Camelize(attr) := Str(value.value)];
      }
    }
  }
}
