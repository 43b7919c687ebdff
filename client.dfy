/** The API client: the global parameters every request carries, and the
    parameters each command adds to them.  The HTTP post is not modelled;
    each command returns the parameters it would send. */
module Client {
  import opened Wrappers
  import opened Exceptions
  import opened PyStr
  import opened Dicts
  import opened Contacts
  import opened Domains
  import opened Camel

  const ProductionEndpoint: string := "https://api.namecheap.com/xml.response"

  /** The `list_type` argument of the list commands and its wire value. */
  const ListTypes: map<string, string> :=
    map["all" := "ALL", "expiring" := "EXPIRING", "expired" := "EXPIRED"]

  /** The `sort_by` argument of the list commands and its wire value. */
  const SortTypes: map<string, string> :=
    map["name" := "NAME", "-name" := "NAME_DESC",
        "expire_date" := "EXPIREDATE", "-expire_date" := "EXPIREDATE_DESC",
        "create_date" := "CREATEDATE", "-create_date" := "CREATEDATE_DESC"]

  /** The certificate types `ssl_create` accepts, spelled exactly as the client
      spells them (five of them end in a space). */
  const SslTypes: seq<string> :=
    ["QuickSSL", "QuickSSL Premium", "RapidSSL", "RapidSSL Wildcard",
     "PremiumSSL", "InstantSSL", "PositiveSSL", "PositiveSSL Wildcard",
     "True BusinessID with EV", "True BusinessID ",
     "True BusinessID Wildcard ", "Secure Site ", "Secure Site Pro ",
     "Secure Site with EV ", "Secure Site Pro with EV", "EssentialSSL",
     "EssentialSSL Wildcard", "InstantSSL Pro", "Premiumssl wildcard",
     "EV SSL", "EV SSL SGC", "SSL123", "SSL Web Server",
     "SGC Super Certs", "SSL Webserver EV"]

  /** The type names are compared character for character: `Secure Site`
      without its trailing space is refused, with it accepted. */
  lemma SslTypesTrailingSpace()
    ensures "Secure Site" !in SslTypes && "Secure Site " in SslTypes
  {
    assert SslTypes[11] == "Secure Site ";
    forall i | 0 <= i < |SslTypes| ensures SslTypes[i] != "Secure Site" {
      assert |SslTypes[i]| != 11 || SslTypes[i][0] == 'P';
    }
  }

  /** The parameters `common_get_list` adds for table images `listType` and
      `sortBy`: `SearchTerm` only when the search term is truthy. */
  function GetListOptions(command: string, listType: string, sortBy: string,
                          pageSize: Value, page: Value, searchTerm: Option<string>): (opts: Params)
    ensures opts.Keys == {"Command", "ListType", "SortBy", "Page", "PageSize"}
                         + (if Truthy(searchTerm) then {"SearchTerm"} else {})
    ensures opts["Command"] == Str(command) && opts["ListType"] == Str(listType)
    ensures opts["SortBy"] == Str(sortBy) && opts["Page"] == page && opts["PageSize"] == pageSize
    ensures Truthy(searchTerm) ==> opts["SearchTerm"] == Str(searchTerm.value)
  {
    var opts := map["Command" := Str(command), "ListType" := Str(listType),
                    "SortBy" := Str(sortBy), "Page" := page, "PageSize" := pageSize];
    if Truthy(searchTerm) then opts["SearchTerm" := Str(searchTerm.value)] else opts
  }

  /** `','.join(ns.upper() for ns in nameservers)` */
  function NameserverList(nameservers: seq<string>): string
  {
    Join(UpperAll(nameservers), ',')
  }

  function UpperAll(names: seq<string>): (r: seq<string>)
    ensures |r| == |names| && forall i | 0 <= i < |names| :: r[i] == Upper(names[i])
  {
    seq(|names|, i requires 0 <= i < |names| => Upper(names[i]))
  }

  /** The upper-cased names can be split back out of the list, in order. */
  lemma NameserverListSplit(nameservers: seq<string>)
    requires |nameservers| >= 1 && forall ns | ns in nameservers :: ',' !in ns
    ensures Split(NameserverList(nameservers), ',') == UpperAll(nameservers)
  {
    var ups := UpperAll(nameservers);
    forall u | u in ups ensures ',' !in u {
      var i :| 0 <= i < |ups| && ups[i] == u;
      assert nameservers[i] in nameservers;
      assert forall j | 0 <= j < |u| :: u[j] != ',' by {
        forall j | 0 <= j < |u| ensures u[j] != ',' {
          assert u[j] == UpperChar(nameservers[i][j]);
          assert nameservers[i][j] in nameservers[i];
        }
      }
    }
    SplitJoin(ups, ',');
  }

  /** The list has one comma fewer than there are names. */
  lemma NameserverListCommas(nameservers: seq<string>)
    requires |nameservers| >= 1 && forall ns | ns in nameservers :: ',' !in ns
    ensures Count(NameserverList(nameservers), ',') == |nameservers| - 1
  {
    NameserverListSplit(nameservers);
    SplitCount(NameserverList(nameservers), ',');
  }

  const CreateCommand: string := "namecheap.domains.create"

  /** The fields `domains_create` starts from. */
  function CommandFields(domainName: string, years: Value): Params
  {
    map["Command" := Str(CreateCommand), "DomainName" := Str(domainName), "Years" := years]
  }

  /** The parameters `domains_create` gathers before the request: the command
      fields, then each contact's `as_dict`, later ones overriding earlier ones. */
  function CreateOptions(domainName: string, years: Value,
                         registrant: Params, admin: Params, tech: Params, auxBilling: Params): Params
  {
    CommandFields(domainName, years) + registrant + admin + tech + auxBilling
  }

  /** A key whose first character differs from the prefix's is not a key of
      a dict prefixed by it. */
  lemma OutsidePrefix(p: Params, prefix: string, k: string)
    requires AllPrefixed(p, prefix) && |prefix| >= 1 && |k| >= 1 && k[0] != prefix[0]
    ensures k !in p
  {
    if |prefix| <= |k| {
      assert k[..|prefix|][0] != prefix[0];
    }
  }

  /** A command field whose name starts with none of the contacts' initials
      survives the contacts' updates. */
  lemma CreateOptionsFixed(domainName: string, years: Value,
                           registrant: Params, admin: Params, tech: Params, auxBilling: Params,
                           k: string)
    requires AllPrefixed(registrant, "Registrant") && AllPrefixed(admin, "Admin")
    requires AllPrefixed(tech, "Tech") && AllPrefixed(auxBilling, "AuxBilling")
    requires k in CommandFields(domainName, years)
    requires |k| >= 1 && k[0] != 'R' && k[0] != 'A' && k[0] != 'T'
    ensures CreateOptions(domainName, years, registrant, admin, tech, auxBilling)[k]
            == CommandFields(domainName, years)[k]
  {
    OutsidePrefix(registrant, "Registrant", k);
    OutsidePrefix(admin, "Admin", k);
    OutsidePrefix(tech, "Tech", k);
    OutsidePrefix(auxBilling, "AuxBilling", k);
  }

  /** Dicts under the four contact prefixes share no key. */
  lemma ContactPrefixesDisjoint(registrant: Params, admin: Params, tech: Params, auxBilling: Params)
    requires AllPrefixed(registrant, "Registrant") && AllPrefixed(admin, "Admin")
    requires AllPrefixed(tech, "Tech") && AllPrefixed(auxBilling, "AuxBilling")
    ensures registrant.Keys !! admin.Keys && registrant.Keys !! tech.Keys
    ensures registrant.Keys !! auxBilling.Keys && admin.Keys !! tech.Keys
    ensures admin.Keys !! auxBilling.Keys && tech.Keys !! auxBilling.Keys
  {
    PrefixedDisjoint(registrant, admin, "Registrant", "Admin", 0);
    PrefixedDisjoint(registrant, tech, "Registrant", "Tech", 0);
    PrefixedDisjoint(registrant, auxBilling, "Registrant", "AuxBilling", 0);
    PrefixedDisjoint(admin, tech, "Admin", "Tech", 0);
    PrefixedDisjoint(admin, auxBilling, "Admin", "AuxBilling", 1);
    PrefixedDisjoint(tech, auxBilling, "Tech", "AuxBilling", 0);
  }

  /** With the contacts' dicts under their four prefixes, the options carry
      the command fields intact. */
  lemma CreateOptionsCommand(domainName: string, years: Value,
                             r: Params, a: Params, t: Params, x: Params)
    requires AllPrefixed(r, "Registrant") && AllPrefixed(a, "Admin")
    requires AllPrefixed(t, "Tech") && AllPrefixed(x, "AuxBilling")
    ensures CreateOptions(domainName, years, r, a, t, x)["Command"] == Str(CreateCommand)
    ensures CreateOptions(domainName, years, r, a, t, x)["DomainName"] == Str(domainName)
    ensures CreateOptions(domainName, years, r, a, t, x)["Years"] == years
  {
    var command := CommandFields(domainName, years);
    assert "Command" in command && "DomainName" in command && "Years" in command;
    assert "Command"[0] == 'C' && "DomainName"[0] == 'D' && "Years"[0] == 'Y';
    CreateOptionsFixed(domainName, years, r, a, t, x, "Command");
    CreateOptionsFixed(domainName, years, r, a, t, x, "DomainName");
    CreateOptionsFixed(domainName, years, r, a, t, x, "Years");
  }

  /** With the contacts' dicts under their four prefixes, every contact
      parameter reaches the options unchanged. */
  lemma CreateOptionsContacts(domainName: string, years: Value,
                              r: Params, a: Params, t: Params, x: Params)
    requires AllPrefixed(r, "Registrant") && AllPrefixed(a, "Admin")
    requires AllPrefixed(t, "Tech") && AllPrefixed(x, "AuxBilling")
    ensures forall k | k in r :: CreateOptions(domainName, years, r, a, t, x)[k] == r[k]
    ensures forall k | k in a :: CreateOptions(domainName, years, r, a, t, x)[k] == a[k]
    ensures forall k | k in t :: CreateOptions(domainName, years, r, a, t, x)[k] == t[k]
    ensures forall k | k in x :: CreateOptions(domainName, years, r, a, t, x)[k] == x[k]
  {
    ContactPrefixesDisjoint(r, a, t, x);
  }

  /** Of two contacts sending the same key, the later one's value is sent
      (tech's update comes after admin's). */
  lemma CreateOptionsTechWins(domainName: string, years: Value,
                              registrant: Params, admin: Params, tech: Params, auxBilling: Params,
                              k: string)
    requires k in tech && k !in auxBilling
    ensures CreateOptions(domainName, years, registrant, admin, tech, auxBilling)[k] == tech[k]
  {
  }

  /** Contacts that are supplied keep their own prefix, so two supplied with
      the same one (the default is empty) send the same keys and the later
      update replaces the earlier one's values: admin and tech both send
      `<prefix>FirstName`, and tech's is the one that reaches the options. */
  lemma SharedPrefixOverwrites(domainName: string, years: Value, r: Params,
                               prefix: string, admin: Fields, tech: Fields, x: Params)
    requires AllPrefixed(x, "AuxBilling") && (prefix == [] || prefix[0] != 'A')
    requires admin.firstName.Some? && tech.firstName.Some?
    ensures var k := prefix + "FirstName";
      && k in WireParams(prefix, admin) && k in WireParams(prefix, tech)
      && CreateOptions(domainName, years, r, WireParams(prefix, admin), WireParams(prefix, tech), x)[k]
         == WireParams(prefix, tech)[k] == Str(tech.firstName.value)
  {
    var k := prefix + "FirstName";
    FirstNameSent(prefix, admin);
    FirstNameSent(prefix, tech);
    assert k[0] != 'A';
    OutsidePrefix(x, "AuxBilling", k);
    CreateOptionsTechWins(domainName, years, r, WireParams(prefix, admin), WireParams(prefix, tech), x, k);
  }

  class NamecheapClient {
    /** The global parameters of every request. */
    var baseOpts: Params
    var baseUrl: string

    /** `NamecheapClient(api_user, api_key, username, client_ip, environment)`:
        the user name defaults to the API user and the client IP to the
        looked-up address `lookedUpIp` when they are not truthy. */
    constructor (apiUser: string, apiKey: string, lookedUpIp: string,
                 username: Option<string> := None, clientIp: Option<string> := None,
                 environment: string := ProductionEndpoint)
      ensures baseOpts.Keys == {"ApiUser", "ApiKey", "UserName", "ClientIp"}
      ensures baseOpts["ApiUser"] == Str(apiUser) && baseOpts["ApiKey"] == Str(apiKey)
      ensures baseOpts["UserName"] == Str(if Truthy(username) then username.value else apiUser)
      ensures baseOpts["ClientIp"] == Str(if Truthy(clientIp) then clientIp.value else lookedUpIp)
      ensures baseUrl == environment
    {
      var ip := if Truthy(clientIp) then clientIp.value else lookedUpIp;
      var user := if !Truthy(username) then apiUser else username.value;
      baseOpts := map["ApiUser" := Str(apiUser), "ApiKey" := Str(apiKey),
                      "UserName" := Str(user), "ClientIp" := Str(ip)];
      baseUrl := environment;
    }

    /** `request(**kwargs)`: a copy of the global parameters updated with the
        call's own. The client's parameters are left as they were. */
    method Request(kwargs: Params) returns (sent: Params)
      ensures Overrides(sent, baseOpts, kwargs)
    {
      var opts := baseOpts;
      opts := Update(opts, kwargs);
      sent := opts;
    }

    /** `common_get_list`: an unknown `list_type` is reported before an
        unknown `sort_by`. */
    method CommonGetList(command: string, listType: string := "all", sortBy: string := "name",
                         pageSize: Value := Int(10), page: Value := Int(1),
                         searchTerm: Option<string> := None)
      returns (r: Result<Params, Error>)
      ensures listType !in ListTypes ==> r == Failure(ValueError("Invalid list_type."))
      ensures listType in ListTypes && sortBy !in SortTypes ==> r == Failure(ValueError("Invalid sort_by"))
      ensures r.Success? <==> listType in ListTypes && sortBy in SortTypes
      ensures r.Success? ==> Overrides(r.value, baseOpts,
        GetListOptions(command, ListTypes[listType], SortTypes[sortBy], pageSize, page, searchTerm))
    {
      if listType !in ListTypes {
        return Failure(ValueError("Invalid list_type."));
      }
      var listValue := ListTypes[listType];
      if sortBy !in SortTypes {
        return Failure(ValueError("Invalid sort_by"));
      }
      var sortValue := SortTypes[sortBy];
      var getOpts := map["Command" := Str(command), "ListType" := Str(listValue),
                         "SortBy" := Str(sortValue), "Page" := page, "PageSize" := pageSize];
      if Truthy(searchTerm) {
        getOpts := getOpts["SearchTerm" := Str(searchTerm.value)];
      }
      var sent := Request(getOpts);
      return Success(sent);
    }

    /** `domains_get_list`, up to the request. */
    method DomainsGetList(listType: string := "all", sortBy: string := "name",
                          pageSize: Value := Int(10), page: Value := Int(1),
                          searchTerm: Option<string> := None)
      returns (r: Result<Params, Error>)
      ensures listType !in ListTypes ==> r == Failure(ValueError("Invalid list_type."))
      ensures listType in ListTypes && sortBy !in SortTypes ==> r == Failure(ValueError("Invalid sort_by"))
      ensures r.Success? <==> listType in ListTypes && sortBy in SortTypes
      ensures r.Success? ==> Overrides(r.value, baseOpts,
        GetListOptions("namecheap.domains.getList", ListTypes[listType], SortTypes[sortBy],
                       pageSize, page, searchTerm))
    {
      r := CommonGetList("namecheap.domains.getList", listType, sortBy, pageSize, page, searchTerm);
    }

    /** `ssl_get_list` */
    method SslGetList(listType: string := "all", sortBy: string := "name",
                      pageSize: Value := Int(10), page: Value := Int(1),
                      searchTerm: Option<string> := None)
      returns (r: Result<Params, Error>)
      ensures listType !in ListTypes ==> r == Failure(ValueError("Invalid list_type."))
      ensures listType in ListTypes && sortBy !in SortTypes ==> r == Failure(ValueError("Invalid sort_by"))
      ensures r.Success? <==> listType in ListTypes && sortBy in SortTypes
      ensures r.Success? ==> Overrides(r.value, baseOpts,
        GetListOptions("namecheap.ssl.getList", ListTypes[listType], SortTypes[sortBy],
                       pageSize, page, searchTerm))
    {
      r := CommonGetList("namecheap.ssl.getList", listType, sortBy, pageSize, page, searchTerm);
    }

    /** `domains_dns_set_custom`, up to the request. */
    method DomainsDnsSetCustom(sld: string, tld: string, nameservers: seq<string>) returns (sent: Params)
      ensures Overrides(sent, baseOpts,
        map["Command" := Str("namecheap.domains.dns.setCustom"), "SLD" := Str(sld), "TLD" := Str(tld),
            "Nameservers" := Str(NameserverList(nameservers))])
    {
      var getOpts := map["Command" := Str("namecheap.domains.dns.setCustom"),
                         "SLD" := Str(sld), "TLD" := Str(tld)];
      getOpts := getOpts["Nameservers" := Str(NameserverList(nameservers))];
      sent := Request(getOpts);
    }

    /** `Domain.set_nameservers`: the domain's second- and top-level parts,
        each of which may fail, then `domains_dns_set_custom`. */
    method SetDomainNameservers(d: Domain, nameservers: seq<string>) returns (r: Result<Params, Error>)
      ensures Sld(d).Failure? ==> r == Failure(Sld(d).error)
      ensures Sld(d).Success? && Tld(d).Failure? ==> r == Failure(Tld(d).error)
      ensures r.Success? <==> Tld(d).Success?
      ensures r.Success? ==> Overrides(r.value, baseOpts,
        map["Command" := Str("namecheap.domains.dns.setCustom"),
            "SLD" := Str(Sld(d).value), "TLD" := Str(Tld(d).value),
            "Nameservers" := Str(NameserverList(nameservers))])
    {
      var sld := Sld(d);
      if sld.Failure? {
        return Failure(sld.error);
      }
      var tld := Tld(d);
      if tld.Failure? {
        return Failure(tld.error);
      }
      var sent := DomainsDnsSetCustom(sld.value, tld.value, nameservers);
      return Success(sent);
    }

    /** `ssl_create`, up to the request: the type must be one of the listed
        ones, character for character. */
    method SslCreate(sslType: string, years: Value := Int(1)) returns (r: Result<Params, Error>)
      ensures sslType !in SslTypes <==> r == Failure(ValueError("Invalid SSL Certificate Type"))
      ensures r.Success? <==> sslType in SslTypes
      ensures r.Success? ==> Overrides(r.value, baseOpts,
        map["Command" := Str("namecheap.ssl.create"), "Years" := years, "Type" := Str(sslType)])
    {
      if sslType !in SslTypes {
        return Failure(ValueError("Invalid SSL Certificate Type"));
      }
      var getOpts := map["Command" := Str("namecheap.ssl.create"), "Years" := years,
                         "Type" := Str(sslType)];
      var sent := Request(getOpts);
      return Success(sent);
    }

    /** `domains_create`, up to the request. The registrant is required and
        gets the prefix `Registrant` in place; a contact not given is a copy of
        the registrant with its own prefix. */
    method DomainsCreate(domainName: string, registrant: Option<Contact>,
                         admin: Option<Contact> := None, tech: Option<Contact> := None,
                         auxBilling: Option<Contact> := None, years: Value := Int(1))
      returns (r: Result<Params, Error>)
      modifies if registrant.Some? then {registrant.value} else {}
      ensures registrant.None? <==> r == Failure(KeyError("registrant"))
      ensures registrant.Some? ==> registrant.value.prefix == "Registrant"
      ensures registrant.Some? ==> r.Success? && r.value == Update(baseOpts, CreateOptions(
        domainName, years,
        WireParams("Registrant", registrant.value.fields),
        ContactParams(admin, "Admin", registrant.value),
        ContactParams(tech, "Tech", registrant.value),
        ContactParams(auxBilling, "AuxBilling", registrant.value)))
    {
      if registrant.None? {
        return Failure(KeyError("registrant"));
      }
      var reg := registrant.value;
      reg.prefix := "Registrant";
      var a := Supplied(admin, reg, "Admin");
      var t := Supplied(tech, reg, "Tech");
      var x := Supplied(auxBilling, reg, "AuxBilling");
      var getOpts := map["Command" := Str(CreateCommand),
                         "DomainName" := Str(domainName), "Years" := years];
      var dr := reg.AsDict();
      getOpts := Update(getOpts, dr);
      var da := a.AsDict();
      getOpts := Update(getOpts, da);
      var dt := t.AsDict();
      getOpts := Update(getOpts, dt);
      var dx := x.AsDict();
      getOpts := Update(getOpts, dx);
      var sent := Request(getOpts);
      OverridesUnique(sent, Update(baseOpts, getOpts), baseOpts, getOpts);
      return Success(sent);
    }
  }

  /** The contact given, or else a copy of the registrant with `prefix`. */
  method Supplied(given: Option<Contact>, registrant: Contact, prefix: string) returns (c: Contact)
    ensures given.Some? ==> c == given.value
    ensures given.None? ==> fresh(c) && c.prefix == prefix && c.fields == registrant.fields
  {
    if given.Some? {
      c := given.value;
    } else {
      c := registrant.Copy();
      c.prefix := prefix;
    }
  }

  /** The `as_dict` of a contact given to `domains_create`, or of the
      registrant's copy with `prefix` when it was not given. */
  function ContactParams(given: Option<Contact>, prefix: string, registrant: Contact): Params
    reads if given.Some? then {given.value} else {}
  {
    if given.Some? then WireParams(given.value.prefix, given.value.fields)
    else WireParams(prefix, registrant.fields)
  }


  /** Registering with only a registrant sends every registrant parameter
      under each of the four prefixes, with the command fields intact. */
  lemma DomainsCreateDefaults(domainName: string, years: Value, f: Fields)
    ensures var opts := CreateOptions(domainName, years,
              WireParams("Registrant", f), WireParams("Admin", f),
              WireParams("Tech", f), WireParams("AuxBilling", f));
      && opts["Command"] == Str(CreateCommand)
      && opts["DomainName"] == Str(domainName) && opts["Years"] == years
      && (forall k | k in WireParams("Registrant", f) :: opts[k] == WireParams("Registrant", f)[k])
      && (forall k | k in WireParams("Admin", f) :: opts[k] == WireParams("Admin", f)[k])
      && (forall k | k in WireParams("Tech", f) :: opts[k] == WireParams("Tech", f)[k])
      && (forall k | k in WireParams("AuxBilling", f) :: opts[k] == WireParams("AuxBilling", f)[k])
  {
    WireParamsPrefixed("Registrant", f);
    WireParamsPrefixed("Admin", f);
    WireParamsPrefixed("Tech", f);
    WireParamsPrefixed("AuxBilling", f);
    var r, a, t, x := WireParams("Registrant", f), WireParams("Admin", f),
                      WireParams("Tech", f), WireParams("AuxBilling", f);
    CreateOptionsCommand(domainName, years, r, a, t, x);
    CreateOptionsContacts(domainName, years, r, a, t, x);
  }
}
