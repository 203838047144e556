/** The two helpers of `utils.js`: page-name routing and CSS class-name joining. */
module Utils {
  import opened Wrappers
  import opened Text

  /** The route of every page of the application, keyed by page name. */
  const PagePaths: map<string, string> := map[
    "Dashboard" := "/",
    "Employees" := "/employees",
    "Departments" := "/departments",
    "Absences" := "/absences",
    "OvertimeManagement" := "/overtime",
    "Vacations" := "/vacations",
    "Payroll" := "/payroll",
    "HRConfig" := "/hr-config",
    "Stores" := "/stores",
    "CashBreaks" := "/cash-breaks",
    "CeasaSuppliers" := "/ceasa-suppliers",
    "CeasaPurchases" := "/ceasa-purchases",
    "Reports" := "/reports",
    "AbsenceReports" := "/absence-reports",
    "CeasaReports" := "/ceasa-reports",
    "CashBreakReports" := "/cash-break-reports"
  ]

  /** `createPageUrl(href)`: the page's route, or `/` for a name that is not listed. */
  function CreatePageUrl(href: string): (url: string)
    ensures href in PagePaths ==> url == PagePaths[href]
    ensures href !in PagePaths ==> url == "/"
    ensures |url| > 0 && url[0] == '/'
  {
    if href in PagePaths && PagePaths[href] != "" then PagePaths[href] else "/"
  }

  /** `/` is reached only by `Dashboard` and by names that are not listed. */
  lemma RootOnlyForDashboard(href: string)
    ensures CreatePageUrl(href) == "/" <==> href == "Dashboard" || href !in PagePaths
  {
  }

  /**
   * An argument of `cn(...)`: a class name, or a value JavaScript treats as false
   * (`false`, `null`, `undefined`, `0`), represented by `None`.
   */
  type ClassArg = Option<string>

  predicate Truthy(c: ClassArg) {
    c.Some? && c.value != ""
  }

  /** `classes.filter(Boolean)`. */
  function Kept(classes: seq<ClassArg>): (r: seq<string>)
    ensures |r| <= |classes|
    ensures forall i :: 0 <= i < |r| ==> r[i] != ""
    ensures forall i :: 0 <= i < |r| ==> Some(r[i]) in classes
    ensures forall j :: 0 <= j < |classes| && Truthy(classes[j]) ==> classes[j].value in r
  {
    if classes == [] then []
    else (if Truthy(classes[0]) then [classes[0].value] else []) + Kept(classes[1..])
  }

  /** `cn(...classes)`: the truthy class names, in order, separated by single spaces. */
  function Cn(classes: seq<ClassArg>): string {
    Join(Kept(classes), " ")
  }

  lemma {:induction false} KeptAppend(a: seq<ClassArg>, b: seq<ClassArg>)
    ensures Kept(a + b) == Kept(a) + Kept(b)
  {
    if a == [] {
      assert a + b == b;
    } else {
      assert (a + b)[1..] == a[1..] + b;
      KeptAppend(a[1..], b);
    }
  }

  /**
   * The truthy arguments keep their order: the one at `j` comes right after the names kept
   * from the arguments before it.
   */
  lemma KeptInOrder(classes: seq<ClassArg>, j: int)
    requires 0 <= j < |classes| && Truthy(classes[j])
    ensures |Kept(classes[..j])| < |Kept(classes)|
    ensures Kept(classes)[|Kept(classes[..j])|] == classes[j].value
  {
    var rest := classes[j..];
    assert classes == classes[..j] + rest;
    KeptAppend(classes[..j], rest);
    assert rest[0] == classes[j];
  }

  /** A falsy argument, wherever it stands, changes nothing in the result. */
  lemma CnIgnoresFalsy(a: seq<ClassArg>, x: ClassArg, b: seq<ClassArg>)
    requires !Truthy(x)
    ensures Cn(a + [x] + b) == Cn(a + b)
  {
    assert a + [x] + b == (a + [x]) + b;
    KeptAppend(a + [x], b);
    KeptAppend(a, [x]);
    KeptAppend(a, b);
    assert [x][1..] == [];
    assert Kept([x]) == [];
    assert Kept(a + [x]) == Kept(a) + [] == Kept(a);
    assert Kept(a + [x] + b) == Kept(a) + Kept(b) == Kept(a + b);
  }

  lemma {:induction false} JoinSnoc(parts: seq<string>, x: string, sep: string)
    requires parts != []
    ensures Join(parts + [x], sep) == Join(parts, sep) + sep + x
  {
    if |parts| == 1 {
      assert (parts + [x])[1..] == [x];
    } else {
      assert (parts + [x])[1..] == parts[1..] + [x];
      JoinSnoc(parts[1..], x, sep);
    }
  }

  /** A further class name is appended after one space, or stands alone when nothing came before. */
  lemma CnAppend(a: seq<ClassArg>, name: string)
    requires name != ""
    ensures Kept(a) == [] ==> Cn(a + [Some(name)]) == name
    ensures Kept(a) != [] ==> Cn(a + [Some(name)]) == Cn(a) + " " + name
  {
    KeptAppend(a, [Some(name)]);
    assert [Some(name)][1..] == [];
    assert Kept([Some(name)]) == [name];
    if Kept(a) != [] {
      JoinSnoc(Kept(a), name, " ");
    }
  }
}
