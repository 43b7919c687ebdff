/** A registered domain as the domain list returns it, and the split of its
    name into second- and top-level parts. */
module Domains {
  import opened Wrappers
  import opened Exceptions
  import opened PyStr

  /** The attributes of a listed domain. `created` and `expires` keep the
      text of the listing. */
  datatype Domain = Domain(
    autoRenew: Option<string>,
    created: string,
    expires: string,
    id: int,
    isExpired: bool,
    isLocked: bool,
    name: Option<string>,
    user: Option<string>,
    whoisGuard: Option<string>)

  /** `kwargs.get(key)` on the attributes of one listed domain. */
  function Attr(attrs: map<string, string>, key: string): Option<string>
  {
    if key in attrs then Some(attrs[key]) else None
  }

  /** A flag is set exactly when its attribute is the text `true`. */
  function Flag(attrs: map<string, string>, key: string): (b: bool)
    ensures b <==> key in attrs && attrs[key] == "true"
  {
    Attr(attrs, key) == Some("true")
  }

  /** `Domain(client, **attrs)`: `Created` and `Expires` must be present
      (the date parser is given None otherwise), and `ID` must be present and
      an integer literal. */
  function FromAttributes(attrs: map<string, string>): Result<Domain, Error>
  {
    if "Created" !in attrs then Failure(TypeError)
    else if "Expires" !in attrs then Failure(TypeError)
    else if "ID" !in attrs then Failure(TypeError)
    else match ParseInt(attrs["ID"])
      case None => Failure(ValueError("invalid literal for int() with base 10"))
      case Some(id) =>
        Success(Domain(
          autoRenew := Attr(attrs, "AutoRenew"),
          created := attrs["Created"],
          expires := attrs["Expires"],
          id := id,
          isExpired := Flag(attrs, "IsExpired"),
          isLocked := Flag(attrs, "IsLocked"),
          name := Attr(attrs, "Name"),
          user := Attr(attrs, "User"),
          whoisGuard := Attr(attrs, "WhoisGuard")))
  }

  /** A listed domain is built exactly when its dates and an integer ID are
      there; it then carries the listing's text, the parsed ID, and flags
      that are set only by `true`. */
  lemma FromAttributesContents(attrs: map<string, string>)
    ensures FromAttributes(attrs).Success? <==>
      "Created" in attrs && "Expires" in attrs && "ID" in attrs && ParseInt(attrs["ID"]).Some?
    ensures ("Created" !in attrs || "Expires" !in attrs || "ID" !in attrs) ==>
      FromAttributes(attrs) == Failure(TypeError)
    ensures FromAttributes(attrs).Success? ==>
      var d := FromAttributes(attrs).value;
      && d.created == attrs["Created"] && d.expires == attrs["Expires"]
      && Some(d.id) == ParseInt(attrs["ID"])
      && (d.isExpired <==> Attr(attrs, "IsExpired") == Some("true"))
      && (d.isLocked <==> Attr(attrs, "IsLocked") == Some("true"))
      && d.name == Attr(attrs, "Name")
  {
  }

  /** An ID written by `str` reads back as itself. */
  lemma FromAttributesId(attrs: map<string, string>, id: int)
    requires "Created" in attrs && "Expires" in attrs
    requires "ID" in attrs && attrs["ID"] == IntToString(id)
    ensures FromAttributes(attrs).Success? && FromAttributes(attrs).value.id == id
  {
    ParseIntToString(id);
  }

  /** `Domain.sld`: the name up to its first dot, or all of it when it has
      none. */
  function Sld(d: Domain): (r: Result<string, Error>)
    ensures d.name.None? <==> r == Failure(AttributeError)
    ensures d.name.Some? ==> r.Success?
    ensures r.Success? ==> '.' !in r.value
    ensures r.Success? ==> var name := d.name.value;
      && |r.value| <= |name| && name[..|r.value|] == r.value
      && (|r.value| == |name| || name[|r.value|] == '.')
  {
    match d.name
    case None => Failure(AttributeError)
    case Some(name) =>
      SplitFirst(name, '.');
      Success(Split(name, '.')[0])
  }

  /** `Domain.tld`: the text after the first dot, up to the second dot or to
      the end. */
  function Tld(d: Domain): (r: Result<string, Error>)
    ensures d.name.None? <==> r == Failure(AttributeError)
    ensures d.name.Some? ==> (r == Failure(IndexError) <==> '.' !in d.name.value)
    ensures d.name.Some? && '.' in d.name.value ==> r.Success?
    ensures r.Success? ==> '.' !in r.value
    ensures r.Success? ==> var name := d.name.value;
      && Sld(d).Success? && |Sld(d).value| < |name|
      && var rest := name[|Sld(d).value| + 1..];
         |r.value| <= |rest| && rest[..|r.value|] == r.value
         && (|r.value| == |rest| || rest[|r.value|] == '.')
  {
    match d.name
    case None => Failure(AttributeError)
    case Some(name) =>
      var pieces := Split(name, '.');
      SplitCount(name, '.');
      CountZero(name, '.');
      SplitFirst(name, '.');
      if |pieces| < 2 then Failure(IndexError)
      else
        SplitFirst(name[|pieces[0]| + 1..], '.');
        Success(pieces[1])
  }

  /** A name without a dot is its own second-level part: `localhost` gives
      `localhost`. */
  lemma SldOfDotless(d: Domain)
    requires d.name.Some? && '.' !in d.name.value
    ensures Sld(d) == Success(d.name.value)
  {
    var name, s := d.name.value, Sld(d).value;
    assert forall i | 0 <= i < |name| :: name[i] != '.';
    assert |s| == |name| && name[..|name|] == name;
  }

  /** A name with one dot is its second-level part, a dot, and its
      top-level part. */
  lemma SldDotTld(d: Domain, sld: string, tld: string)
    requires '.' !in sld && '.' !in tld
    requires d.name == Some(sld + "." + tld)
    ensures Sld(d) == Success(sld) && Tld(d) == Success(tld)
  {
    SplitJoin([sld, tld], '.');
    assert Join([sld, tld], '.') == sld + "." + tld;
  }

  /** With more than one dot, the top-level part is only the second label:
      `a.co.uk` gives `co`, not `co.uk`. */
  lemma TldOfThreeLabels(d: Domain, a: string, b: string, c: string)
    requires '.' !in a && '.' !in b && '.' !in c
    requires d.name == Some(a + "." + b + "." + c)
    ensures Sld(d) == Success(a) && Tld(d) == Success(b)
  {
    assert [a, b, c][1..] == [b, c];
    assert Join([b, c], '.') == b + "." + c;
    assert Join([a, b, c], '.') == a + "." + b + "." + c;
    SplitJoin([a, b, c], '.');
  }

  /** Whatever the number of dots, the name begins with its second-level
      part, a dot and its top-level part. */
  lemma SldTldPrefix(d: Domain)
    requires Tld(d).Success?
    ensures var name, prefix := d.name.value, Sld(d).value + "." + Tld(d).value;
      |prefix| <= |name| && name[..|prefix|] == prefix
  {
    var name := d.name.value;
    var pieces := Split(name, '.');
    JoinSplit(name, '.');
    var rest := Join(pieces[1..], '.');
    assert name == pieces[0] + "." + rest;
    if |pieces| > 2 {
      assert rest == pieces[1] + "." + Join(pieces[2..], '.');
    }
    var prefix := pieces[0] + "." + pieces[1];
    assert name[..|prefix|] == prefix;
  }
}
