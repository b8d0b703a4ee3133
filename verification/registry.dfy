/** ADQL text the registry client builds for its RegTAP queries: the
    resource search of `RegistryClass._build_adql`, the grouped count query
    of `RegistryClass._build_counts_adql`, and the guard of `query` that
    refuses a search it cannot build. */
module Registry {
  import opened Wrappers
  import opened Strings

  /** One keyword argument, in call order. */
  datatype Kwarg = Kwarg(key: string, val: string)

  /** The seven options the search builder recognises. */
  datatype Options = Options(
    serviceType: string,
    keyword: string,
    waveband: string,
    source: string,
    publisher: string,
    orderBy: string,
    logicString: string)

  /** Values used for options the caller does not pass. */
  const DefaultOptions := Options("", "", "", "", "", "", " and ")

  /** The keyword names the search builder looks at. */
  predicate Recognised(key: string)
  {
    key in {"service_type", "keyword", "waveband", "source", "publisher", "order_by", "logic_string"}
  }

  /** The effect of one keyword argument on the options. */
  function ApplyKwarg(o: Options, kw: Kwarg): Options
  {
    if kw.key == "service_type" then o.(serviceType := kw.val)
    else if kw.key == "keyword" then o.(keyword := kw.val)
    else if kw.key == "waveband" then o.(waveband := kw.val)
    else if kw.key == "source" then o.(source := kw.val)
    else if kw.key == "publisher" then o.(publisher := kw.val)
    else if kw.key == "order_by" then o.(orderBy := kw.val)
    else if kw.key == "logic_string" then o.(logicString := kw.val)
    else o
  }

  /** The loop over `kwargs.items()`: each recognised key overwrites its option. */
  function ParseOptions(kwargs: seq<Kwarg>): Options
  {
    if |kwargs| == 0 then DefaultOptions
    else ApplyKwarg(ParseOptions(kwargs[..|kwargs| - 1]), kwargs[|kwargs| - 1])
  }

  /** Reference reading of the keyword arguments: the value last passed
      under `key`, or `default` when none was. */
  function LookupOr(kwargs: seq<Kwarg>, key: string, default: string): string
  {
    if |kwargs| == 0 then default
    else if kwargs[|kwargs| - 1].key == key then kwargs[|kwargs| - 1].val
    else LookupOr(kwargs[..|kwargs| - 1], key, default)
  }

  /** Every option is the value passed under its own keyword, or its
      default; in particular the joining string defaults to " and ". */
  lemma {:induction false} ParseOptionsLookup(kwargs: seq<Kwarg>)
    ensures var o := ParseOptions(kwargs);
      && o.serviceType == LookupOr(kwargs, "service_type", "")
      && o.keyword == LookupOr(kwargs, "keyword", "")
      && o.waveband == LookupOr(kwargs, "waveband", "")
      && o.source == LookupOr(kwargs, "source", "")
      && o.publisher == LookupOr(kwargs, "publisher", "")
      && o.orderBy == LookupOr(kwargs, "order_by", "")
      && o.logicString == LookupOr(kwargs, "logic_string", " and ")
  {
    if |kwargs| > 0 {
      ParseOptionsLookup(kwargs[..|kwargs| - 1]);
    }
  }

  /** A keyword argument outside the seven recognised ones changes nothing,
      wherever it appears among the others. */
  lemma {:induction false} UnrecognisedIgnored(before: seq<Kwarg>, kw: Kwarg, after: seq<Kwarg>)
    requires !Recognised(kw.key)
    ensures ParseOptions(before + [kw] + after) == ParseOptions(before + after)
  {
    if |after| == 0 {
      assert before + [kw] + after == before + [kw];
      assert (before + [kw])[..|before|] == before;
      assert before + after == before;
    } else {
      var init := after[..|after| - 1];
      UnrecognisedIgnored(before, kw, init);
      assert (before + [kw] + after)[..|before + [kw] + after| - 1] == before + [kw] + init;
      assert (before + after)[..|before + after| - 1] == before + init;
    }
  }

  /** The four registry capabilities a search can target. */
  datatype Capability = SimpleImageAccess | SimpleSpectralAccess | ConeSearch | TableAccess

  /** The capability name used in the `cap.cap_type like` filter. */
  function CapName(c: Capability): string
  {
    match c
    case SimpleImageAccess => "simpleimageaccess"
    case SimpleSpectralAccess => "simplespectralaccess"
    case ConeSearch => "conesearch"
    case TableAccess => "tableaccess"
  }

  /** Maps the free-text service type to a capability: "image", then
      "spectr", then "cone" on the lower-cased text, then "tap" or "table"
      on the text as given; anything else is refused. */
  function NormaliseServiceType(st: string): (r: Option<Capability>)
    ensures r == Some(SimpleImageAccess) <==> Contains(Lower(st), "image")
    ensures r == Some(SimpleSpectralAccess)
      <==> !Contains(Lower(st), "image") && Contains(Lower(st), "spectr")
    ensures r == Some(ConeSearch)
      <==> !Contains(Lower(st), "image") && !Contains(Lower(st), "spectr") && Contains(Lower(st), "cone")
    ensures r == Some(TableAccess)
      <==> !Contains(Lower(st), "image") && !Contains(Lower(st), "spectr") && !Contains(Lower(st), "cone")
           && (Contains(st, "tap") || Contains(st, "table"))
  {
    var low := Lower(st);
    if Contains(low, "image") then Some(SimpleImageAccess)
    else if Contains(low, "spectr") then Some(SimpleSpectralAccess)
    else if Contains(low, "cone") then Some(ConeSearch)
    else if Contains(st, "tap") || Contains(st, "table") then Some(TableAccess)
    else None
  }

  /** Any service type that is recognised is recognised the same way once
      lower-cased: the case-sensitive "tap"/"table" test never sees a
      capital it needs. */
  lemma LowerKeepsRecognised(st: string)
    ensures NormaliseServiceType(st).Some? ==> NormaliseServiceType(Lower(st)) == NormaliseServiceType(st)
  {
    LowerIdempotent(st);
    if Contains(st, "tap") {
      ContainsLower(st, "tap");
    }
    if Contains(st, "table") {
      ContainsLower(st, "table");
    }
  }

  /** The converse fails: "TAP" is refused while "tap" selects table access. */
  lemma TableTestIsCaseSensitive()
    ensures NormaliseServiceType("TAP") == None
    ensures NormaliseServiceType("tap") == Some(TableAccess)
  {
    assert Lower("tap") == "tap";
    assert Lower("TAP") == "tap";
    ShortNotContains("tap", "image");
    ShortNotContains("tap", "spectr");
    ShortNotContains("tap", "cone");
    ShortNotContains("TAP", "table");
    ShortNotContains("AP", "tap");
    assert "tap" <= "tap";
    assert !("tap" <= "TAP");
  }

  /** `"<column> like '%<v>%'"`. */
  function Like(column: string, v: string): string
  {
    column + " like '%" + v + "%'"
  }

  const PublisherRole := "res_role.base_role" + " = 'publisher'"

  /** The SIA version 2 exclusion added to image searches. */
  const SiaV2Exclusion := "standard_id != " + "'ivo://ivoa.net/std/sia#query-2.0'"

  /** The fixed select list and joins that open every search. */
  const SelectClause :=
    "\n          select res.waveband,res.short_name,cap.ivoid,res.res_description,"
    + "\n          intf.access_url,res.reference_url,res_role.role_name as publisher,cap.cap_type as service_type"
    + "\n          from rr.capability as cap"
    + "\n            natural join rr.resource as res"
    + "\n            natural join rr.interface as intf"
    + "\n            natural join rr.res_role as res_role"
    + "\n            "

  function CapTypeFragment(c: Capability): string
  {
    Like("cap.cap_type", CapName(c))
  }

  /** One term of a comma-separated waveband group: the formatted term with
      its trailing space, stripped. */
  function WavebandTerm(w: string): (r: string)
    ensures r == Like("res.waveband", w)
  {
    var t := Like("res.waveband", w);
    assert (t + " ")[..|t + " "| - 1] == t;
    StripOneTrailingSpace(t + " ");
    Strip(t + " ")
  }

  function WavebandTerms(pieces: seq<string>): (r: seq<string>)
    ensures |r| == |pieces|
    ensures forall i :: 0 <= i < |pieces| ==> r[i] == Like("res.waveband", pieces[i])
  {
    if |pieces| == 0 then [] else [WavebandTerm(pieces[0])] + WavebandTerms(pieces[1..])
  }

  /** A string holding the separator splits into at least two pieces. */
  lemma SplitAtSeparator(s: string, c: char)
    requires c in s
    ensures |Split(s, c)| >= 2
  {
    JoinSplit(s, c);
  }

  /** The waveband filter: a parenthesised " or " group with one term per
      comma-separated piece when the waveband holds a comma, a single term
      otherwise. */
  function WavebandFragment(waveband: string): (r: string)
    ensures ',' !in waveband ==> r == Like("res.waveband", waveband)
    ensures ',' in waveband ==>
      var pieces := Split(waveband, ',');
      && |pieces| >= 2
      && Join(pieces, ",") == waveband
      && exists terms: seq<string> ::
           && |terms| == |pieces|
           && (forall i :: 0 <= i < |pieces| ==> terms[i] == Like("res.waveband", pieces[i]))
           && r == "(" + Join(terms, " or ") + ")"
  {
    if ',' in waveband then
      var pieces := Split(waveband, ',');
      SplitAtSeparator(waveband, ',');
      JoinSplit(waveband, ',');
      "(" + Join(WavebandTerms(pieces), " or ") + ")"
    else
      Like("res.waveband", waveband)
  }

  /** The free-text keyword filter, matched against description, title and
      identifier. */
  function KeywordFragment(k: string): string
  {
    "\n" + "             (res.res_description like '%" + k + "%' or"
    + "\n            res.res_title like '%" + k + "%' or"
    + "\n            cap.ivoid like '%" + k + "%')"
    + "\n            "
  }

  function Optional(present: bool, fragment: string): seq<string>
  {
    if present then [fragment] else []
  }

  /** 1 when `b` holds, else 0. */
  function Count(b: bool): nat
  {
    if b then 1 else 0
  }

  /** The WHERE fragments, in the order the builder appends them. */
  function Wheres(o: Options, c: Capability): (r: seq<string>)
    ensures |r| >= 2 && r[0] == CapTypeFragment(c)
    ensures PublisherRole in r
    ensures c == SimpleImageAccess ==> r[1] == SiaV2Exclusion
    ensures o.source != "" ==> Like("cap.ivoid", o.source) in r
    ensures o.waveband != "" ==> WavebandFragment(o.waveband) in r
    ensures o.publisher != "" ==> Like("res_role.role_name", o.publisher) in r
    ensures o.keyword != "" ==> KeywordFragment(o.keyword) in r
    ensures |r| == 2 + Count(c == SimpleImageAccess) + Count(o.source != "") + Count(o.waveband != "")
                   + Count(o.publisher != "") + Count(o.keyword != "")
  {
    [CapTypeFragment(c)]
      + Optional(c == SimpleImageAccess, SiaV2Exclusion)
      + Optional(o.source != "", Like("cap.ivoid", o.source))
      + Optional(o.waveband != "", WavebandFragment(o.waveband))
      + [PublisherRole]
      + Optional(o.publisher != "", Like("res_role.role_name", o.publisher))
      + Optional(o.keyword != "", KeywordFragment(o.keyword))
  }

  /** The fragments after the capability filter keep the builder's order:
      the publisher-role filter follows the source and waveband filters and
      precedes the publisher filter, which precedes the keyword filter. */
  lemma WheresOrder(o: Options, c: Capability)
    ensures var r := Wheres(o, c);
      r[|r| - 1 - Count(o.publisher != "") - Count(o.keyword != "")] == PublisherRole
    ensures var r := Wheres(o, c);
      o.publisher != "" ==> r[|r| - 1 - Count(o.keyword != "")] == Like("res_role.role_name", o.publisher)
    ensures var r := Wheres(o, c);
      o.keyword != "" ==> r[|r| - 1] == KeywordFragment(o.keyword)
  {
    var head := [CapTypeFragment(c)]
      + Optional(c == SimpleImageAccess, SiaV2Exclusion)
      + Optional(o.source != "", Like("cap.ivoid", o.source))
      + Optional(o.waveband != "", WavebandFragment(o.waveband));
    var pub := Optional(o.publisher != "", Like("res_role.role_name", o.publisher));
    var kw := Optional(o.keyword != "", KeywordFragment(o.keyword));
    var r := Wheres(o, c);
    assert r == head + [PublisherRole] + pub + kw;
    assert |pub| == Count(o.publisher != "") && |kw| == Count(o.keyword != "");
    assert r[|head|] == PublisherRole;
    if o.publisher != "" {
      assert r[|head| + 1] == Like("res_role.role_name", o.publisher);
    }
  }

  /** True iff every fragment is non-empty and starts with something other
      than the 's' that opens the SIA version 2 exclusion. */
  predicate NoneStartWithS(fs: seq<string>)
  {
    forall i :: 0 <= i < |fs| ==> |fs[i]| > 0 && fs[i][0] != 's'
  }

  lemma SiaV2ExclusionStartsWithS()
    ensures |SiaV2Exclusion| > 0 && SiaV2Exclusion[0] == 's'
  {
  }

  /** A fragment that may be left out, and does not open with an 's'. */
  lemma OptionalNoS(present: bool, f: string)
    requires |f| > 0 && f[0] != 's'
    ensures NoneStartWithS(Optional(present, f))
  {
  }

  lemma WavebandFragmentNoS(w: string)
    ensures |WavebandFragment(w)| > 0 && WavebandFragment(w)[0] != 's'
  {
    if ',' in w {
      assert WavebandFragment(w)[0] == '(';
    } else {
      assert WavebandFragment(w)[0] == 'r';
    }
  }

  lemma KeywordFragmentNoS(k: string)
    ensures |KeywordFragment(k)| > 0 && KeywordFragment(k)[0] != 's'
  {
    assert KeywordFragment(k)[0] == '\n';
  }

  /** Apart from the SIA version 2 exclusion, no fragment opens with 's'. */
  lemma WheresNoS(o: Options, c: Capability)
    requires c != SimpleImageAccess
    ensures NoneStartWithS(Wheres(o, c))
  {
    var cap := [CapTypeFragment(c)];
    var sia := Optional(false, SiaV2Exclusion);
    var src := Optional(o.source != "", Like("cap.ivoid", o.source));
    var wav := Optional(o.waveband != "", WavebandFragment(o.waveband));
    var pub := Optional(o.publisher != "", Like("res_role.role_name", o.publisher));
    var kw := Optional(o.keyword != "", KeywordFragment(o.keyword));
    assert NoneStartWithS(cap) by {
      assert CapTypeFragment(c)[0] == 'c';
    }
    assert NoneStartWithS(cap + sia + src) by {
      assert Like("cap.ivoid", o.source)[0] == 'c';
      OptionalNoS(o.source != "", Like("cap.ivoid", o.source));
      NoneStartWithSConcat(cap, sia);
      NoneStartWithSConcat(cap + sia, src);
    }
    assert NoneStartWithS(cap + sia + src + wav + [PublisherRole]) by {
      WavebandFragmentNoS(o.waveband);
      OptionalNoS(o.waveband != "", WavebandFragment(o.waveband));
      NoneStartWithSConcat(cap + sia + src, wav);
      NoneStartWithSConcat(cap + sia + src + wav, [PublisherRole]);
    }
    assert Like("res_role.role_name", o.publisher)[0] == 'r';
    OptionalNoS(o.publisher != "", Like("res_role.role_name", o.publisher));
    KeywordFragmentNoS(o.keyword);
    OptionalNoS(o.keyword != "", KeywordFragment(o.keyword));
    NoneStartWithSConcat(cap + sia + src + wav + [PublisherRole], pub);
    NoneStartWithSConcat(cap + sia + src + wav + [PublisherRole] + pub, kw);
  }

  /** The SIA version 2 exclusion is among the fragments exactly for image
      searches: no other fragment starts with its opening 's'. */
  lemma WheresSiaExclusion(o: Options, c: Capability)
    ensures SiaV2Exclusion in Wheres(o, c) <==> c == SimpleImageAccess
  {
    if c == SimpleImageAccess {
      assert Wheres(o, c)[1] == SiaV2Exclusion;
    } else {
      WheresNoS(o, c);
      SiaV2ExclusionStartsWithS();
    }
  }

  lemma NoneStartWithSConcat(a: seq<string>, b: seq<string>)
    requires NoneStartWithS(a) && NoneStartWithS(b)
    ensures NoneStartWithS(a + b)
  {
    assert forall i :: 0 <= i < |a + b| ==> (a + b)[i] == if i < |a| then a[i] else b[i - |a|];
  }

  function OrderClause(orderBy: string): string
  {
    if orderBy != "" then "order by " + orderBy else ""
  }

  /** The search ADQL, or None when the service type is not recognised. */
  function BuildAdql(kwargs: seq<Kwarg>): (r: Option<string>)
    ensures r.None? <==> NormaliseServiceType(ParseOptions(kwargs).serviceType).None?
    ensures r.Some? ==>
      var o := ParseOptions(kwargs);
      var c := NormaliseServiceType(o.serviceType).value;
      r.value == SelectClause + " where " + Join(Wheres(o, c), o.logicString) + OrderClause(o.orderBy)
  {
    var o := ParseOptions(kwargs);
    match NormaliseServiceType(o.serviceType)
    case None => None
    case Some(c) => Some(SelectClause + " where " + Join(Wheres(o, c), o.logicString) + OrderClause(o.orderBy))
  }

  /** Nothing separates the last WHERE fragment from "order by": the text
      ends with that fragment immediately followed by the ordering. */
  lemma OrderByFollowsLastFragment(kwargs: seq<Kwarg>)
    ensures var o := ParseOptions(kwargs);
      BuildAdql(kwargs).Some? && o.orderBy != "" ==>
        var ws := Wheres(o, NormaliseServiceType(o.serviceType).value);
        EndsWith(BuildAdql(kwargs).value, ws[|ws| - 1] + ("order by " + o.orderBy))
  {
    var o := ParseOptions(kwargs);
    if BuildAdql(kwargs).Some? && o.orderBy != "" {
      var ws := Wheres(o, NormaliseServiceType(o.serviceType).value);
      var ord := "order by " + o.orderBy;
      assert BuildAdql(kwargs).value == SelectClause + " where " + Join(ws, o.logicString) + ord;
      JoinThenSuffix(SelectClause + " where ", ws, o.logicString, ord);
    }
  }

  /** Text after a join follows the join's last item directly. */
  lemma JoinThenSuffix(head: string, ws: seq<string>, sep: string, ord: string)
    requires |ws| > 0
    ensures EndsWith(head + Join(ws, sep) + ord, ws[|ws| - 1] + ord)
  {
    JoinEndsWithLast(ws, sep);
    EndsWithExtend(head, Join(ws, sep), ws[|ws| - 1]);
    EndsWithAppend(head + Join(ws, sep), ws[|ws| - 1], ord);
  }

  /** Every search holds the publisher-role filter and, for image searches,
      the SIA version 2 exclusion, each at some position of the text. */
  lemma BuildAdqlFilters(kwargs: seq<Kwarg>)
    ensures BuildAdql(kwargs).Some? ==>
      var o := ParseOptions(kwargs);
      var c := NormaliseServiceType(o.serviceType).value;
      var q := BuildAdql(kwargs).value;
      && SelectClause + " where " + CapTypeFragment(c) <= q
      && (exists i :: OccursAt(q, PublisherRole, i))
      && (c == SimpleImageAccess ==> exists i :: OccursAt(q, SiaV2Exclusion, i))
  {
    if BuildAdql(kwargs).Some? {
      var o := ParseOptions(kwargs);
      var c := NormaliseServiceType(o.serviceType).value;
      var ws := Wheres(o, c);
      var head := SelectClause + " where ";
      var where := Join(ws, o.logicString);
      var ord := OrderClause(o.orderBy);
      var q := BuildAdql(kwargs).value;
      assert q == head + where + ord;
      assert CapTypeFragment(c) <= where;
      assert head + CapTypeFragment(c) <= q;
      var i :| 0 <= i < |ws| && ws[i] == PublisherRole;
      JoinContainsItem(ws, o.logicString, i);
      ContainsSuffix(head, where, PublisherRole);
      ContainsPrefix(head + where, ord, PublisherRole);
      ContainsOccurs(q, PublisherRole);
      if c == SimpleImageAccess {
        JoinContainsItem(ws, o.logicString, 1);
        ContainsSuffix(head, where, SiaV2Exclusion);
        ContainsPrefix(head + where, ord, SiaV2Exclusion);
        ContainsOccurs(q, SiaV2Exclusion);
      }
    }
  }

  /** The message `query` raises when no search can be built. */
  const UnableToCompute := "Unable to compute query based on input arguments."

  /** The ADQL `query` sends, or the ValueError it raises first. */
  function Query(kwargs: seq<Kwarg>): (r: Result<string, Exception>)
    ensures r.Failure? <==> BuildAdql(kwargs).None?
    ensures r.Failure? ==> r.error == ValueError(UnableToCompute)
    ensures r.Success? ==> Some(r.value) == BuildAdql(kwargs)
  {
    match BuildAdql(kwargs)
    case None => Failure(ValueError(UnableToCompute))
    case Some(adql) => Success(adql)
  }

  /** What a counted field groups over: its table, its column and an
      optional row filter. */
  datatype CountTarget = CountTarget(table: string, column: string, filter: string)

  /** The field-to-table mapping of the count query; the waveband column
      keeps the caller's spelling of the field. */
  function CountTargetOf(field: string): (r: Option<CountTarget>)
    ensures r.None? <==> Lower(field) !in {"waveband", "publisher", "service_type"}
    ensures Lower(field) == "waveband" ==> r == Some(CountTarget("rr.resource", field, ""))
    ensures Lower(field) == "publisher" ==>
      r == Some(CountTarget("rr.res_role", "role_name", " where base_role = 'publisher' "))
    ensures Lower(field) == "service_type" ==> r == Some(CountTarget("rr.capability", "cap_type", ""))
  {
    var low := Lower(field);
    if low == "waveband" then Some(CountTarget("rr.resource", field, ""))
    else if low == "publisher" then Some(CountTarget("rr.res_role", "role_name", " where base_role = 'publisher' "))
    else if low == "service_type" then Some(CountTarget("rr.capability", "cap_type", ""))
    else None
  }

  /** The grouped count query for `field`, keeping only groups of at least
      `minimum` rows, largest first; None for a field it cannot count. */
  function BuildCountsAdql(field: string, minimum: int := 1): (r: Option<string>)
    ensures r.None? <==> CountTargetOf(field).None?
  {
    match CountTargetOf(field)
    case None => None
    case Some(t) => Some(CountsQuery(field, t, minimum))
  }

  /** The select list of the count query: the column under the caller's
      alias and its count as `count_<alias>`. */
  function CountsSelect(column: string, alias: string): string
  {
    "select " + column + " as " + alias + ", count(" + column + ") as count_" + alias
  }

  /** The outer filter keeping groups of at least `minimum` rows. */
  function CountsMinimum(alias: string, minimum: int): string
  {
    " where count_" + alias + " >= " + IntToString(minimum)
  }

  /** The ordering, largest count first. */
  function CountsOrder(alias: string): string
  {
    " order by count_" + alias + " desc"
  }

  /** The count query text for a known target, assembled as the builder
      does from its select, from, filter, group-by, minimum and ordering
      parts. */
  function CountsQuery(field: string, t: CountTarget, minimum: int): string
  {
    "select * from (" + CountsSelect(t.column, field) + " from " + t.table + t.filter
      + " group by " + t.column + ") as count_table" + CountsMinimum(field, minimum) + CountsOrder(field)
  }

  /** Shape of every count query: it opens by selecting the target column
      under the caller's spelling of the field and counting it, groups the
      target table (filtered when the target says so) by the column, and
      ends by keeping groups of at least `minimum` rows, largest first. */
  lemma BuildCountsAdqlShape(field: string, minimum: int)
    requires BuildCountsAdql(field, minimum).Some?
    ensures var t := CountTargetOf(field).value;
      var q := BuildCountsAdql(field, minimum).value;
      && "select * from (" + CountsSelect(t.column, field) <= q
      && Contains(q, " from " + t.table + t.filter + " group by " + t.column + ") as count_table")
      && EndsWith(q, CountsMinimum(field, minimum) + CountsOrder(field))
  {
    var t := CountTargetOf(field).value;
    var q := BuildCountsAdql(field, minimum).value;
    assert q == CountsQuery(field, t, minimum);
    var pre := "select * from (" + CountsSelect(t.column, field);
    var mid := " from " + t.table + t.filter + " group by " + t.column + ") as count_table";
    var tail := CountsMinimum(field, minimum) + CountsOrder(field);
    assert q == pre + mid + tail by {
      var p1 := ") as count_table";
      Assoc(pre, " from ", t.table);
      Assoc(pre, " from " + t.table, t.filter);
      Assoc(pre, " from " + t.table + t.filter, " group by ");
      Assoc(pre, " from " + t.table + t.filter + " group by ", t.column);
      Assoc(pre, " from " + t.table + t.filter + " group by " + t.column, p1);
      Assoc(pre + mid, CountsMinimum(field, minimum), CountsOrder(field));
    }
    ContainsInfix(pre, mid, tail);
    Assoc(pre, mid, tail);
    EndsWithConcat(pre + mid, tail);
  }
}
