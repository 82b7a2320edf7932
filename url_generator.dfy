/** The OData query-URL builder (src/Services/UrlGenerator.cs).

    Every operation is a pure concatenation: the base URL, a `?`, and one or
    more `key=value` query options. Arguments are inserted verbatim, with no
    percent-encoding. The system query options are those of section 5.1 of
    OData Version 4.0 Part 2 (URL Conventions); `$apply` is from the OData
    Data Aggregation extension. */
module UrlGenerator {
  import opened Results
  import opened Text

  /** A C# `int`. */
  newtype Int32 = x: int | -0x8000_0000 <= x < 0x8000_0000

  /** One query option: its key (such as `$filter`) and its raw value. */
  type QueryOption = (string, string)

  /** `{key}={value}`. */
  function OptionItem(option: QueryOption): string
  {
    option.0 + "=" + option.1
  }

  function OptionItems(options: seq<QueryOption>): (items: seq<string>)
    ensures |items| == |options|
    ensures forall i :: 0 <= i < |options| ==> items[i] == OptionItem(options[i])
  {
    if options == [] then [] else [OptionItem(options[0])] + OptionItems(options[1..])
  }

  /** `{serviceUrl}/{entityName}`, with no slash normalisation: the service
      URL and the entity name are both recoverable from the result. */
  function GenerateBaseUrl(serviceUrl: string, entityName: string): (url: string)
    ensures serviceUrl <= url
    ensures |url| == |serviceUrl| + 1 + |entityName|
    ensures url[|serviceUrl|] == '/' && url[|serviceUrl| + 1..] == entityName
  {
    serviceUrl + "/" + entityName
  }

  /** `{baseUrl}?` followed by the options as `k=v` joined with `&`, in the
      order supplied (the iteration order of the C# dictionary). */
  function ApplyQueryOptions(baseUrl: string, queryOptions: seq<QueryOption>): (url: string)
    ensures baseUrl + "?" <= url
    ensures queryOptions == [] ==> url == baseUrl + "?"
  {
    baseUrl + "?" + Join('&', OptionItems(queryOptions))
  }

  /** An option list that reads back unambiguously: no key holds `=` or `&`,
      no value holds `&`. */
  predicate Unambiguous(queryOptions: seq<QueryOption>)
  {
    forall i :: 0 <= i < |queryOptions| ==>
      '=' !in queryOptions[i].0 && '&' !in queryOptions[i].0 && '&' !in queryOptions[i].1
  }

  /** Reads one `k=v` item back (an item without `=` reads as a key with an empty value). */
  function ReadOption(item: string): QueryOption
  {
    match SplitFirst('=', item)
    case Some((k, v)) => (k, v)
    case None => (item, "")
  }

  function ReadOptions(items: seq<string>): (options: seq<QueryOption>)
    ensures |options| == |items|
    ensures forall i :: 0 <= i < |items| ==> options[i] == ReadOption(items[i])
  {
    if items == [] then [] else [ReadOption(items[0])] + ReadOptions(items[1..])
  }

  /** The query options of `url` as a URL built on `baseUrl`, or `None` when
      `url` does not start with `baseUrl?`. */
  function QueryOf(url: string, baseUrl: string): Option<seq<QueryOption>>
  {
    if baseUrl + "?" <= url then
      var query := url[|baseUrl| + 1..];
      Some(if query == "" then [] else ReadOptions(Split('&', query)))
    else None
  }

  lemma ReadOptionItem(option: QueryOption)
    requires '=' !in option.0
    ensures ReadOption(OptionItem(option)) == option
  {
    SplitFirstAt('=', option.0, option.1);
  }

  lemma {:induction false} ReadOptionItems(queryOptions: seq<QueryOption>)
    requires Unambiguous(queryOptions)
    ensures ReadOptions(OptionItems(queryOptions)) == queryOptions
  {
    if queryOptions != [] {
      ReadOptionItem(queryOptions[0]);
      ReadOptionItems(queryOptions[1..]);
    }
  }

  lemma ItemsHaveNoAmpersand(queryOptions: seq<QueryOption>)
    requires Unambiguous(queryOptions)
    ensures forall i :: 0 <= i < |queryOptions| ==> '&' !in OptionItems(queryOptions)[i]
  {
    forall i | 0 <= i < |queryOptions| ensures '&' !in OptionItems(queryOptions)[i] {
      var (k, v) := queryOptions[i];
      assert OptionItems(queryOptions)[i] == k + "=" + v;
    }
  }

  /** The builder adds nothing and loses nothing: the options of the URL read
      back exactly, in the supplied order, duplicates included. */
  lemma ApplyQueryOptionsRoundTrip(baseUrl: string, queryOptions: seq<QueryOption>)
    requires Unambiguous(queryOptions)
    ensures QueryOf(ApplyQueryOptions(baseUrl, queryOptions), baseUrl) == Some(queryOptions)
  {
    var url := ApplyQueryOptions(baseUrl, queryOptions);
    var items := OptionItems(queryOptions);
    assert url[|baseUrl| + 1..] == Join('&', items);
    if queryOptions != [] {
      ItemsHaveNoAmpersand(queryOptions);
      SplitJoin('&', items);
      JoinStartsWithFirst('&', items);
      assert items[0][|queryOptions[0].0|] == '=';
      ReadOptionItems(queryOptions);
    }
  }

  lemma {:induction false} OptionItemsAppend(first: seq<QueryOption>, second: seq<QueryOption>)
    ensures OptionItems(first + second) == OptionItems(first) + OptionItems(second)
  {
    if first != [] {
      assert (first + second)[1..] == first[1..] + second;
      OptionItemsAppend(first[1..], second);
    }
  }

  /** For two non-empty option lists, the options are the first list's items, `&`, the second's. */
  lemma ApplyQueryOptionsAppend(baseUrl: string, first: seq<QueryOption>, second: seq<QueryOption>)
    requires first != [] && second != []
    ensures ApplyQueryOptions(baseUrl, first + second)
         == ApplyQueryOptions(baseUrl, first) + "&" + Join('&', OptionItems(second))
  {
    OptionItemsAppend(first, second);
    JoinAppend('&', OptionItems(first), OptionItems(second));
  }

  lemma ApplyTwoOptions(baseUrl: string, a: QueryOption, b: QueryOption)
    ensures ApplyQueryOptions(baseUrl, [a, b]) == baseUrl + "?" + OptionItem(a) + "&" + OptionItem(b)
  {
    assert OptionItems([a, b]) == [OptionItem(a), OptionItem(b)];
    JoinTwo('&', OptionItem(a), OptionItem(b));
  }

  lemma ApplyThreeOptions(baseUrl: string, a: QueryOption, b: QueryOption, c: QueryOption)
    ensures ApplyQueryOptions(baseUrl, [a, b, c])
         == baseUrl + "?" + OptionItem(a) + "&" + OptionItem(b) + "&" + OptionItem(c)
  {
    assert OptionItems([a, b, c]) == [OptionItem(a), OptionItem(b), OptionItem(c)];
    JoinThree('&', OptionItem(a), OptionItem(b), OptionItem(c));
  }

  /** `$filter={nestedFilter}`. */
  function GenerateNestedFilterUrl(baseUrl: string, nestedFilter: string): (url: string)
    ensures url == ApplyQueryOptions(baseUrl, [("$filter", nestedFilter)])
  {
    baseUrl + "?$filter=" + nestedFilter
  }

  /** `$filter=id eq '{id}'`: the id is quoted as a string literal, not escaped. */
  function GenerateFilterByIdUrl(baseUrl: string, id: string): (url: string)
    ensures url == GenerateNestedFilterUrl(baseUrl, "id eq '" + id + "'")
  {
    baseUrl + "?$filter=id eq '" + id + "'"
  }

  /** `$filter=name eq '{name}'`. */
  function GenerateFilterByNameUrl(baseUrl: string, name: string): (url: string)
    ensures url == GenerateNestedFilterUrl(baseUrl, "name eq '" + name + "'")
  {
    baseUrl + "?$filter=name eq '" + name + "'"
  }

  /** `$filter=dob eq {dob}`: the date token is not quoted. */
  function GenerateFilterByDateOfBirthUrl(baseUrl: string, dob: string): (url: string)
    ensures url == GenerateNestedFilterUrl(baseUrl, "dob eq " + dob)
  {
    baseUrl + "?$filter=dob eq " + dob
  }

  /** `$filter=dob ge {startDate} and dob le {endDate}`: unquoted tokens. */
  function GenerateFilterByDateRangeUrl(baseUrl: string, startDate: string, endDate: string): (url: string)
    ensures url == GenerateNestedFilterUrl(baseUrl, "dob ge " + startDate + " and dob le " + endDate)
  {
    baseUrl + "?$filter=dob ge " + startDate + " and dob le " + endDate
  }

  /** `$select={properties}`. */
  function GenerateSelectSpecificPropertiesUrl(baseUrl: string, properties: string): (url: string)
    ensures url == ApplyQueryOptions(baseUrl, [("$select", properties)])
  {
    baseUrl + "?$select=" + properties
  }

  /** `$orderby={property}`. */
  function GenerateOrderByUrl(baseUrl: string, property: string): (url: string)
    ensures url == ApplyQueryOptions(baseUrl, [("$orderby", property)])
  {
    baseUrl + "?$orderby=" + property
  }

  /** `$orderby={property} desc`: the ascending URL with ` desc` appended. */
  function GenerateOrderByDescendingUrl(baseUrl: string, property: string): (url: string)
    ensures url == ApplyQueryOptions(baseUrl, [("$orderby", property + " desc")])
    ensures url == GenerateOrderByUrl(baseUrl, property) + " desc"
  {
    baseUrl + "?$orderby=" + property + " desc"
  }

  /** `$top={top}`, the count in decimal. */
  function GenerateTopUrl(baseUrl: string, top: Int32): (url: string)
    ensures url == ApplyQueryOptions(baseUrl, [("$top", IntToDecimal(top as int))])
  {
    baseUrl + "?$top=" + IntToDecimal(top as int)
  }

  /** `$skip={skip}`, the count in decimal. */
  function GenerateSkipUrl(baseUrl: string, skip: Int32): (url: string)
    ensures url == ApplyQueryOptions(baseUrl, [("$skip", IntToDecimal(skip as int))])
  {
    baseUrl + "?$skip=" + IntToDecimal(skip as int)
  }

  /** `$skip` before `$top`. */
  function GenerateTopAfterSkipUrl(baseUrl: string, skip: Int32, top: Int32): (url: string)
    ensures url == ApplyQueryOptions(baseUrl, [("$skip", IntToDecimal(skip as int)), ("$top", IntToDecimal(top as int))])
    ensures url == GenerateSkipUrl(baseUrl, skip) + "&$top=" + IntToDecimal(top as int)
  {
    ApplyTwoOptions(baseUrl, ("$skip", IntToDecimal(skip as int)), ("$top", IntToDecimal(top as int)));
    baseUrl + "?$skip=" + IntToDecimal(skip as int) + "&$top=" + IntToDecimal(top as int)
  }

  /** `$filter` before `$select`. */
  function GenerateFilterAndSelectUrl(baseUrl: string, filter: string, select: string): (url: string)
    ensures url == ApplyQueryOptions(baseUrl, [("$filter", filter), ("$select", select)])
    ensures url == GenerateNestedFilterUrl(baseUrl, filter) + "&$select=" + select
  {
    ApplyTwoOptions(baseUrl, ("$filter", filter), ("$select", select));
    baseUrl + "?$filter=" + filter + "&$select=" + select
  }

  /** `$filter`, then `$orderby`, then `$top`. */
  function GenerateFilterOrderByAndTopUrl(baseUrl: string, filter: string, orderBy: string, top: Int32): (url: string)
    ensures url == ApplyQueryOptions(baseUrl, [("$filter", filter), ("$orderby", orderBy), ("$top", IntToDecimal(top as int))])
  {
    ApplyThreeOptions(baseUrl, ("$filter", filter), ("$orderby", orderBy), ("$top", IntToDecimal(top as int)));
    baseUrl + "?$filter=" + filter + "&$orderby=" + orderBy + "&$top=" + IntToDecimal(top as int)
  }

  /** `$select` before `$orderby`. */
  function GenerateSelectAndOrderByUrl(baseUrl: string, select: string, orderBy: string): (url: string)
    ensures url == ApplyQueryOptions(baseUrl, [("$select", select), ("$orderby", orderBy)])
    ensures url == GenerateSelectSpecificPropertiesUrl(baseUrl, select) + "&$orderby=" + orderBy
  {
    ApplyTwoOptions(baseUrl, ("$select", select), ("$orderby", orderBy));
    baseUrl + "?$select=" + select + "&$orderby=" + orderBy
  }

  /** `$apply={apply}`. */
  function GenerateApplyAggregationsUrl(baseUrl: string, apply: string): (url: string)
    ensures url == ApplyQueryOptions(baseUrl, [("$apply", apply)])
  {
    baseUrl + "?$apply=" + apply
  }

  /** `$expand={expand}`. */
  function GenerateExpandUrl(baseUrl: string, expand: string): (url: string)
    ensures url == ApplyQueryOptions(baseUrl, [("$expand", expand)])
  {
    baseUrl + "?$expand=" + expand
  }

  /** `$expand={expand}($select={select})`: the nested option is interpolated
      into the expand value, not built as a URL of its own. */
  function GenerateExpandWithSelectUrl(baseUrl: string, expand: string, select: string): (url: string)
    ensures url == GenerateExpandUrl(baseUrl, expand + "($select=" + select + ")")
  {
    baseUrl + "?$expand=" + expand + "($select=" + select + ")"
  }

  /** `$expand={expand}($filter={filter})`. */
  function GenerateExpandWithFilterUrl(baseUrl: string, expand: string, filter: string): (url: string)
    ensures url == GenerateExpandUrl(baseUrl, expand + "($filter=" + filter + ")")
  {
    baseUrl + "?$expand=" + expand + "($filter=" + filter + ")"
  }

  /** The recursive form is the plain one: nesting is the caller's, inside `expand`. */
  function GenerateRecursiveExpandUrl(baseUrl: string, expand: string): (url: string)
    ensures url == GenerateExpandUrl(baseUrl, expand)
  {
    baseUrl + "?$expand=" + expand
  }

  /** The recursive form with a nested `$select` is the plain one. */
  function GenerateRecursiveExpandWithSelectUrl(baseUrl: string, expand: string, select: string): (url: string)
    ensures url == GenerateExpandWithSelectUrl(baseUrl, expand, select)
  {
    baseUrl + "?$expand=" + expand + "($select=" + select + ")"
  }

  /** `$filter={collection}/any(a: a/{filter})`: the single condition is
      prefixed with the lambda variable `a/`. */
  function GenerateNestedFilterWithCollectionUrl(baseUrl: string, collection: string, filter: string): (url: string)
    ensures url == GenerateNestedFilterWithMultipleConditionsUrl(baseUrl, collection, "a/" + filter)
  {
    baseUrl + "?$filter=" + collection + "/any(a: a/" + filter + ")"
  }

  /** `$filter={collection}/any(a: {conditions})`: the conditions are inserted
      as they are; the caller prefixes each clause with `a/`. */
  function GenerateNestedFilterWithMultipleConditionsUrl(baseUrl: string, collection: string, conditions: string): (url: string)
    ensures url == GenerateNestedFilterUrl(baseUrl, collection + "/any(a: " + conditions + ")")
  {
    baseUrl + "?$filter=" + collection + "/any(a: " + conditions + ")"
  }

  /** Without escaping, an `&` inside a value reads back as the start of
      another option: a one-option URL whose value holds `&` reads back as
      two options or more, never as the option supplied. */
  lemma AmpersandInValueIsNotPreserved(baseUrl: string, key: string, value: string)
    requires '&' in value
    ensures QueryOf(ApplyQueryOptions(baseUrl, [(key, value)]), baseUrl) != Some([(key, value)])
  {
    var query := key + "=" + value;
    assert ApplyQueryOptions(baseUrl, [(key, value)]) == baseUrl + "?" + query;
    assert (baseUrl + "?" + query)[|baseUrl| + 1..] == query;
    assert '&' in query by {
      var k :| 0 <= k < |value| && value[k] == '&';
      assert query[|key| + 1 + k] == '&';
    }
    SplitAtSomeSeparator('&', query);
  }

  /** So `name eq 'A&B'` does not survive the round trip: the name filter
      reads back as something else whenever the name holds `&`. */
  lemma FilterByNameWithAmpersand(baseUrl: string, name: string)
    requires '&' in name
    ensures QueryOf(GenerateFilterByNameUrl(baseUrl, name), baseUrl) != Some([("$filter", "name eq '" + name + "'")])
  {
    var k :| 0 <= k < |name| && name[k] == '&';
    assert ("name eq '" + name + "'")[9 + k] == '&';
    AmpersandInValueIsNotPreserved(baseUrl, "$filter", "name eq '" + name + "'");
  }
}
