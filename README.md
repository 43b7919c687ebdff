# frugalmoniker, modelled in Dafny

frugalmoniker is a small Python client for the Namecheap domain registrar's
XML API. Each client method builds a dictionary of request parameters and
posts it. The client's global parameters (`ApiUser`, `ApiKey`, `UserName`,
`ClientIp`) are merged with the command's own. The project models everything
up to the post. It covers:

- the `Contact` record: reading its keyword arguments, `validate`, the phone
  check, `_camelize`, and `as_dict`, which turns the contact into prefixed
  CamelCase parameters such as `AdminFirstName`;
- the `Domain` record built from a listing entry, and its `sld` and `tld`
  properties;
- the parameter assembly of every command of `NamecheapClient`.

The post itself is left out. Each command returns the parameter map it would
send. A command that can raise returns a `Result` holding the map or the
exception; `request` and `domains_dns_set_custom`, which raise nothing
before the post, return the map itself.

Modules, one per file:

| file | module | what |
|---|---|---|
| wrappers.dfy | Wrappers | `Option`, `Result`, `Outcome` |
| exceptions.dfy | Exceptions | the Python exceptions the code raises |
| pystr.dfy | PyStr | ASCII `str.upper`, `str.title`, `str.split`, `str.join`, `int()` and `str()` |
| regex.dfy | Regex | `re.match` for a pattern of single-character atoms |
| dicts.dfy | Dicts | parameter dicts and `dict.update` |
| camel.dfy | Camel | `Contact._camelize` |
| contact.dfy | Contacts | the `Contact` class and the specification of `as_dict` |
| domain.dfy | Domains | the `Domain` record, `sld` and `tld` |
| client.dfy | Client | the `NamecheapClient` class and the `domains_create` options |

Python objects whose fields change become Dafny classes:

- `Contact` keeps `prefix` as a mutable field, because `domains_create`
  overwrites the registrant's `_prefix` in place. Its data attributes are an
  immutable `Fields` value.
- `NamecheapClient` holds `baseOpts` and `baseUrl`.

The loops of `validate` and `as_dict` are `while` loops. Each one is proved
against a specification: `ValidationResult` for `validate`, and the fold
`ParamsUpTo` for `as_dict`. The pure parts are functions. These are the phone
check, `_camelize`, the nameserver join, `sld`/`tld`, and the option tables.

## Model

| member | source | states |
|---|---|---|
| Dicts.Update | frugalmoniker.py:56-57 | after `d.update(other)` the keys are those of both; a key of `other` takes `other`'s value, every other key keeps `d`'s |
| Dicts.OverridesUnique | frugalmoniker.py:56-57 | the contents after an update are determined by the two dicts |
| Dicts.PrefixedDisjoint | frugalmoniker.py:104-107 | dicts whose keys begin with prefixes that differ at some position share no key |
| Client.NamecheapClient.constructor | frugalmoniker.py:29-41 | the global parameters are exactly `ApiUser`, `ApiKey`, `UserName` (the API user when no truthy user name is given) and `ClientIp` (the looked-up address when no truthy IP is given); the base URL is the environment |
| Client.NamecheapClient.Request | frugalmoniker.py:43-58 | the sent parameters hold every global key and every call key; a call key overrides the global value; the client's own parameters are not modified |
| Client.GetListOptions | frugalmoniker.py:139-142 | the list parameters are exactly `Command`, `ListType`, `SortBy`, `Page` and `PageSize`, with the given values, plus `SearchTerm` exactly when the search term is truthy |
| Client.NamecheapClient.CommonGetList | frugalmoniker.py:114-144 | an unknown `list_type` raises `ValueError('Invalid list_type.')` before `sort_by` is looked at; an unknown `sort_by` raises `ValueError('Invalid sort_by')`; otherwise the request carries the table images of both |
| Client.NamecheapClient.DomainsGetList | frugalmoniker.py:146-167 | `domains_get_list` raises `ValueError('Invalid list_type.')` on an unknown `list_type` and `ValueError('Invalid sort_by')` on an unknown `sort_by`; it succeeds exactly when both table lookups do, and then sends `namecheap.domains.getList` with the list parameters |
| Client.NamecheapClient.SslGetList | frugalmoniker.py:233-236 | `ssl_get_list` raises the same two `ValueError`s, succeeds exactly when both lookups do, and then sends `namecheap.ssl.getList` with the list parameters |
| Client.NameserverListSplit | frugalmoniker.py:201 | for one or more names, none containing a comma, splitting the `Nameservers` value (`NameserverList`) at commas gives back the upper-cased names, in input order |
| Client.NameserverListCommas | frugalmoniker.py:201 | for one or more names, none containing a comma, the `Nameservers` value has one comma fewer than there are names |
| Client.NamecheapClient.DomainsDnsSetCustom | frugalmoniker.py:199-204 | the request carries the command, `SLD`, `TLD` and the joined upper-cased nameservers, over the global parameters |
| Client.NamecheapClient.SetDomainNameservers | frugalmoniker.py:272-278 | `set_nameservers` fails with `sld`'s error first, then with `tld`'s; otherwise it sends the domain's two parts to `domains_dns_set_custom` |
| Client.NamecheapClient.SslCreate | frugalmoniker.py:214-228 | the call succeeds exactly when the type is one of the listed names; any other type raises `ValueError('Invalid SSL Certificate Type')`; a successful request carries the command, `Years` and `Type` |
| Client.SslTypesTrailingSpace | frugalmoniker.py:216-225 | the names are compared character for character: `Secure Site` is refused and `Secure Site ` is accepted |
| Client.NamecheapClient.DomainsCreate | frugalmoniker.py:60-109 | a missing registrant raises `KeyError`, and nothing else does; the registrant's prefix becomes `Registrant` in place; the request is the command fields updated in turn with the `as_dict` of the registrant, admin, tech and aux-billing contacts, over the global parameters |
| Client.Supplied | frugalmoniker.py:86-100 | a contact that was given is used as is; a missing one is a fresh copy of the registrant, with the same fields and its own prefix |
| Client.OutsidePrefix | frugalmoniker.py:102-107 | a key whose first character differs from a prefix's is not a key of a dict prefixed by it |
| Client.CreateOptionsFixed | frugalmoniker.py:102-107 | for contacts under the four role prefixes, a command field whose name starts with none of the contacts' initials keeps its value through the four updates |
| Client.ContactPrefixesDisjoint | frugalmoniker.py:104-107 | the parameters under `Registrant`, `Admin`, `Tech` and `AuxBilling` share no key |
| Client.CreateOptionsCommand | frugalmoniker.py:102-107 | for contacts under the four role prefixes, `Command`, `DomainName` and `Years` reach the options unchanged, whatever the contacts hold |
| Client.CreateOptionsContacts | frugalmoniker.py:104-107 | for contacts under the four role prefixes, every contact's parameters reach the options unchanged: no later update overwrites an earlier contact's key |
| Client.CreateOptionsTechWins | frugalmoniker.py:104-107 | a key the tech contact sends, and the aux-billing contact does not, takes tech's value, whatever the earlier contacts sent |
| Client.SharedPrefixOverwrites | frugalmoniker.py:86-107 | supplied admin and tech contacts keep their own prefix; when they share one (such as the default empty prefix) that does not start with `A`, and aux-billing is the registrant's copy, both send `<prefix>FirstName` and tech's first name replaces admin's |
| Client.DomainsCreateDefaults | frugalmoniker.py:82-107 | with only a registrant, the options hold the command fields and every registrant parameter under each of the four prefixes |
| Contacts.AttributeValuesNamed | frugalmoniker.py:340-343 | the values `as_dict` walks line up with the attribute names: the first is the prefix, and each other is what `getattr` (`Lookup`) reads for the name at its index |
| Contacts.FieldsFromKwargsFirstMissing | frugalmoniker.py:299-308 | the first required argument missing, in reading order, raises `KeyError` naming it |
| Contacts.FieldsFromKwargsSucceeds | frugalmoniker.py:297-311 | `FieldsFromKwargs`, the argument reading of `__init__`, succeeds exactly when every required argument is there and an address is given as a truthy `email` or as `email_address`; with only the address missing the `KeyError` names `email_address` |
| Contacts.FieldsFromKwargsRequired | frugalmoniker.py:299-308 | each required attribute is the argument of the same name |
| Contacts.FieldsFromKwargsOptional | frugalmoniker.py:297-311 | each optional attribute is its argument, None when absent; the e-mail address is `email` when that is truthy and `email_address` otherwise |
| Contacts.PhoneNumberFormat | frugalmoniker.py:325-330 | `IsPhoneNumber` (`_validate_phone_number`) holds exactly when the number begins with `+`, three digits, `.` and seven digits |
| Contacts.IsPhoneNumber | frugalmoniker.py:325-330 | a valid number is at least as long as the pattern |
| Contacts.PhoneNumberSuffix | frugalmoniker.py:326-327 | anything may follow a valid number, as the match is anchored only at the start |
| Regex.Match | frugalmoniker.py:326-327 | the empty pattern matches any text, and a text that matches is at least as long as the pattern |
| Regex.MatchAt | frugalmoniker.py:326-327 | a pattern of single-character atoms matches exactly when the text is at least as long and each of its first characters matches its atom |
| Regex.MatchExtends | frugalmoniker.py:326-327 | a match survives any text appended after it |
| Contacts.Contact.Validate | frugalmoniker.py:315-323 | the outcome is `ValidationResult`: the first falsy required field, in order, is reported by name; then a bad phone; then a bad fax, only when a fax is given; otherwise a pass |
| Contacts.ValidationDeterministic | frugalmoniker.py:282-292 | validation has one outcome per record, and it passes exactly on records with every required field truthy, a valid phone, and a valid fax when one is given |
| Contacts.MissingFaxNeverFails | frugalmoniker.py:322-323 | a record without a fax never fails on the fax |
| Contacts.Contact.Create | frugalmoniker.py:294-313 | building a contact raises the `KeyError` of reading its arguments, or else it raises exactly when validation fails, with validation's error; a contact that is built carries the given prefix and the fields read |
| Contacts.Contact.constructor | frugalmoniker.py:294-295 | a new contact holds the given prefix and fields |
| Contacts.Contact.Copy | frugalmoniker.py:89-99 | `copy.copy` gives a fresh contact with the same prefix and fields |
| Camel.SubUnderscoresShape | frugalmoniker.py:337-338 | the substitution never lengthens the text and keeps its first character |
| Camel.CamelizeShape | frugalmoniker.py:332-338 | `_camelize` (`Camelize`) never lengthens a name and upper-cases its first character |
| PyStr.TitleCase | frugalmoniker.py:338 | `title()` only changes the case of letters: each letter stays the same letter and every other character is kept; a letter comes out upper case exactly when it begins a run of letters |
| PyStr.UpperCase | frugalmoniker.py:201 | `upper()` leaves no lower-case letter; each lower-case letter's partner gives it back, and every other character is kept |
| Camel.CamelizeSnakeCase | frugalmoniker.py:332-338 | a snake_case name of one or more lower-case words, each of two or more characters (the last of which may be a digit), becomes its words capitalized and run together; one-letter words are excluded because the substitution's matches cannot overlap |
| Camel.TitleOfSnakeCase | frugalmoniker.py:338 | `title()` of such a name capitalizes each word and keeps the underscores |
| Camel.SubUnderscoresOfPieces | frugalmoniker.py:333-337 | for one or more capitalized alphanumeric pieces of two or more characters each, the substitution removes every underscore between them |
| Camel.CamelizeOneLetterWords | frugalmoniker.py:332-338 | with one-letter words the non-overlapping matches leave an underscore: `a_b_c` becomes `AB_C`, while the words run together would be `ABC` |
| Camel.CamelizeWord | frugalmoniker.py:332-338 | a lower-case word of two or more characters (the last may be a digit) only has its first letter upper-cased |
| Camel.CamelizeWithoutUnderscore | frugalmoniker.py:332-338 | a name without underscores only changes case as `title()` does |
| Camel.CamelizeLeadingUnderscore | frugalmoniker.py:332-338 | a name starting with an underscore keeps it |
| Contacts.FirstNameWord | frugalmoniker.py:346 | `first_name` becomes `FirstName` |
| Contacts.FirstNameSent | frugalmoniker.py:340-348 | a contact with a first name sends that first name, under the key `<prefix>FirstName` |
| Contacts.LaterKeyNotFirstName | frugalmoniker.py:346 | the attributes after `first_name` in `dir()` order get keys other than `<prefix>FirstName` |
| Contacts.ParamsUpToLaterMiss | frugalmoniker.py:341-347 | later attributes whose keys differ from a key leave its presence and value as the earlier ones set them |
| Contacts.FirstNameKey | frugalmoniker.py:346 | `first_name` under the prefix `Admin` becomes `AdminFirstName` |
| Contacts.Address1Key | frugalmoniker.py:346 | `address1` becomes `Address1` |
| Contacts.ParamsUpToComplete | frugalmoniker.py:340-348 | in the fold `ParamsUpTo` that the loop of `as_dict` follows, every public attribute whose value is not None has its parameter |
| Contacts.ParamsUpToSound | frugalmoniker.py:340-348 | every parameter is the prefix plus the camelized name of a public attribute that is not None, and carries that attribute's value |
| Contacts.WireParamsContents | frugalmoniker.py:340-348 | `as_dict` (`WireParams`) holds a key for every public attribute that is not None, and no other key; each value is the attribute's own; `_prefix` never appears |
| Contacts.WireParamsPrefixed | frugalmoniker.py:346 | every key of `as_dict` begins with the contact's prefix |
| Contacts.Contact.AsDict | frugalmoniker.py:340-348 | the loop over the attributes in `dir()` order returns the `as_dict` parameters of the contact's prefix and fields |
| Domains.Flag | frugalmoniker.py:258-259 | a flag is set exactly when its attribute is the text `true` |
| Domains.FromAttributesContents | frugalmoniker.py:249-262 | `FromAttributes` (`Domain.__init__`) builds a domain exactly when `Created`, `Expires` and an integer `ID` are present; a missing one raises `TypeError`; the domain carries the listed text, the parsed ID, the name, and flags set only by `true` |
| Domains.FromAttributesId | frugalmoniker.py:257 | when `Created` and `Expires` are present, an ID written as a decimal integer reads back as itself |
| PyStr.ParseIntToString | frugalmoniker.py:257 | `int(str(n)) == n` for the model `ParseInt` of `int()` |
| PyStr.ParseIntSign | frugalmoniker.py:257 | only text beginning with a digit or a sign is an integer literal, and the value has the sign written |
| Domains.Sld | frugalmoniker.py:268-270 | a domain without a name raises `AttributeError`, and only such a domain does; `sld` is the start of the name up to its first dot, or the whole name when it has none |
| Domains.SldOfDotless | frugalmoniker.py:268-270 | a name without a dot is its own `sld` |
| Domains.Tld | frugalmoniker.py:264-266 | a domain without a name raises `AttributeError`; a name without a dot raises `IndexError`, and only such a name does; otherwise `tld` is the text after the first dot up to the next dot, or to the end |
| Domains.SldDotTld | frugalmoniker.py:264-270 | for a name with one dot, `sld` and `tld` are the parts on either side of it |
| Domains.TldOfThreeLabels | frugalmoniker.py:264-270 | with two dots, `tld` is only the middle label: `a.co.uk` gives `co` |
| Domains.SldTldPrefix | frugalmoniker.py:264-270 | whenever `tld` exists (the name has a dot), the name begins with `sld`, a dot and `tld` |
| PyStr.SplitFirst | frugalmoniker.py:266-270 | the first piece of a split is the text up to the first separator, or all of it; the other pieces are the split of what follows that separator |
| PyStr.Split | frugalmoniker.py:266 | `split` gives at least one piece, and no piece holds the separator |
| PyStr.JoinSplit | frugalmoniker.py:266 | joining the pieces of a split gives back the text |
| PyStr.SplitJoin | frugalmoniker.py:201 | splitting a `join` (`Join`) of one or more separator-free pieces gives back the pieces |
| PyStr.SplitCount | frugalmoniker.py:266 | a split has one piece more than the text has separators |

## Left out

- The HTTP post (frugalmoniker.py:58) is not modelled. Each command returns the parameters it would post.
- The IP lookup over the network (frugalmoniker.py:32) is not modelled. The looked-up address is a parameter of the constructor.
- XML parsing of the responses and the errors raised from them (frugalmoniker.py:169-178 and 206-209) is not modelled. That work is done by the `xmltodict` library. This also leaves out the listing's `Domain` objects. Their keys with the first character stripped are not modelled; `FromAttributes` starts from the stripped attributes.
- `ssl_get_list` after its `return` (frugalmoniker.py:238-245) is not modelled. It is unreachable, and it names an undefined variable.
- `Domains.FromAttributes`: `datetime.strptime` is a library call, so `Created` and `Expires` keep their listed text. A date in the wrong format (a `ValueError` in the source) is not detected. Their absence still raises `TypeError`.
- `Contacts.Contact.AsDict` does not use `dir`, `getattr` or `callable`. The public and private data attributes are a fixed list in `dir()` order, `_prefix` included.
- `str.title`, `str.upper`, `\d` and alphanumeric tests are modelled over ASCII only. The Unicode case tables are not modelled.
- `PyStr.ParseInt` accepts an optional sign followed by ASCII digits. Python's `int()` also accepts surrounding whitespace, which is not modelled (underscores between digits are accepted only from Python 3.6 on, while the client is written for Python 2).
- Exception messages that Python builds itself are abbreviated: the `KeyError` key, the `int()` message, and bare `TypeError`, `IndexError` and `AttributeError`.
- `Client.NamecheapClient.DomainsCreate` treats an absent registrant as the `KeyError` case. A registrant passed explicitly as None raises `AttributeError` in the source, and that is not modelled.
- Contacts passed to `domains_create` are contacts or absent. Python truthiness of other values is not modelled; a `Contact` object is always truthy.
- `Client.NamecheapClient.SetDomainNameservers` takes the domain as an argument. It is a method of the client, since the modelled `Domain` holds no client reference.
- Contact arguments are strings or None. A non-string argument is not modelled: an integer `postal_code` would reach `as_dict` unchanged, and an integer `phone` would make `re.match` raise `TypeError`.
- Supplied `admin`, `tech` and `aux_billing` contacts keep their own `_prefix`, which defaults to the empty string. The lemmas about `CreateOptions` that show no contact overwrites another assume the four role prefixes; `Client.SharedPrefixOverwrites` shows the overwrite when two supplied contacts share a prefix.
- Parameter values are strings or integers (`Dicts.Value`). Values of other Python types passed as `years`, `page` or `page_size` are not modelled.
- `Contacts.WireParamsContents` says a key comes from some attribute with that attribute's value. It does not show that the camelized names of different attributes differ.
- `_camelize` is proved for concrete names only for `first_name` and `address1`. The other names follow from `Camel.CamelizeSnakeCase`.
- setup.py holds packaging metadata only and is not modelled.
