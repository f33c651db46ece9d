/**
  * The two title hooks: `useDocumentTitle`, which brands a page's title and puts the previous
  * title back when the page goes away, and `usePageTitle`, which adds the user's role and an
  * extra part and never puts anything back.
  */
module DocumentTitle {
  import opened Wrappers
  import opened Browser
  import DeliveryDashboard

  const AppName: string := "Cupcake Delivery"
  const Suffix: string := " | Cupcake Delivery"

  /** The title `useDocumentTitle` sets: the page's title and the brand, or the brand alone. */
  function Branded(title: string): (t: string)
    ensures title != "" ==> t == title + Suffix
    ensures title == "" ==> t == AppName
  {
    if title != "" then title + Suffix else AppName
  }

  /** Every branded title ends with the application's name. */
  lemma BrandedEndsWithAppName(title: string)
    ensures |Branded(title)| >= |AppName| && Branded(title)[|Branded(title)| - |AppName|..] == AppName
  {
    var t := Branded(title);
    if title != "" {
      assert t[|t| - |AppName|..] == Suffix[3..];
    }
  }

  /** Different page titles give different document titles. */
  lemma BrandedInjective(a: string, b: string)
    requires Branded(a) == Branded(b)
    ensures a == b
  {
    if a != "" && b != "" {
      assert a == Branded(a)[..|a|];
    }
  }

  /** The role names the page titles show; another type is shown as it is. */
  function RoleName(userType: string): (n: string)
    ensures userType == "customer" ==> n == "Cliente"
    ensures userType == "delivery" ==> n == "Entregador"
    ensures userType == "admin" ==> n == "Administrador"
    ensures userType !in {"customer", "delivery", "admin"} ==> n == userType
    ensures userType != "" ==> n != ""
  {
    match userType
    case "customer" => "Cliente"
    case "delivery" => "Entregador"
    case "admin" => "Administrador"
    case _ => userType
  }

  /** The title before the brand: the page, then the role when given, then the extra part when given. */
  function Heading(basePage: string, userType: Option<string>, extraInfo: Option<string>): (h: string)
    ensures |h| >= |basePage| && h[..|basePage|] == basePage
    ensures !Truthy(userType) && !Truthy(extraInfo) ==> h == basePage
    ensures Truthy(extraInfo) ==> |h| >= |extraInfo.value| + 3 && h[|h| - |extraInfo.value| - 3..] == " - " + extraInfo.value
    ensures Truthy(userType) ==>
      |h| >= |basePage| + 3 + |RoleName(userType.value)| &&
      h[|basePage|..|basePage| + 3 + |RoleName(userType.value)|] == " - " + RoleName(userType.value)
    ensures !Truthy(userType) && Truthy(extraInfo) ==> h == basePage + " - " + extraInfo.value
    ensures Truthy(userType) && !Truthy(extraInfo) ==> h == basePage + " - " + RoleName(userType.value)
    ensures Truthy(userType) && Truthy(extraInfo) ==>
      h == basePage + " - " + RoleName(userType.value) + " - " + extraInfo.value
  {
    var withRole := if Truthy(userType) then basePage + " - " + RoleName(userType.value) else basePage;
    assert withRole[..|basePage|] == basePage;
    assert Truthy(userType) ==> withRole[|basePage|..] == " - " + RoleName(userType.value);
    if Truthy(extraInfo) then withRole + " - " + extraInfo.value else withRole
  }

  /** The title `usePageTitle` sets: the heading and the brand, whatever the heading is. */
  function PageTitle(basePage: string, userType: Option<string>, extraInfo: Option<string>): (t: string)
    ensures |t| >= |Suffix| && t[|t| - |Suffix|..] == Suffix
  {
    Heading(basePage, userType, extraInfo) + Suffix
  }

  /**
    * With neither a role nor an extra part, the two hooks agree on a non-empty page title;
    * on an empty one `usePageTitle` leaves the separator in front of the brand.
    */
  lemma HooksAgree(basePage: string)
    ensures basePage != "" ==> PageTitle(basePage, None, None) == Branded(basePage)
    ensures basePage == "" ==> PageTitle(basePage, None, None) == Suffix && Branded(basePage) == AppName
  {
  }

  /** The delivery dashboard's title: its tab's heading, the role, then the brand. */
  lemma DeliveryTitle(tab: DeliveryDashboard.FilterTab)
    ensures PageTitle(DeliveryDashboard.PageTitle(tab), Some("delivery"), None) ==
      DeliveryDashboard.PageTitle(tab) + " - Entregador" + Suffix
  {
  }

  /**
    * `useDocumentTitle`'s effect on `document.title`: running it saves the title it replaces,
    * and its clean-up puts that title back.
    */
  class TitleEffect {
    const doc: Document
    var previous: string
    var active: bool

    constructor (doc: Document)
      ensures this.doc == doc && !active
    {
      this.doc := doc;
      previous := "";
      active := false;
    }

    /** The effect: remember the current title and set the branded one. */
    method Run(title: string)
      requires !active
      modifies this, doc
      ensures active && previous == old(doc.title) && doc.title == Branded(title)
    {
      previous := doc.title;
      doc.title := Branded(title);
      active := true;
    }

    /** The clean-up: put the remembered title back. */
    method Cleanup()
      requires active
      modifies this, doc
      ensures !active && doc.title == old(previous) && previous == old(previous)
    {
      doc.title := previous;
      active := false;
    }

    /**
      * The page's title changes: the clean-up, then the effect again. What will be put back
      * is still the title from before the page's first run.
      */
    method Retitle(title: string)
      requires active
      modifies this, doc
      ensures active && doc.title == Branded(title) && previous == old(previous)
    {
      Cleanup();
      Run(title);
    }
  }

  /** A page mounted, retitled any number of times and unmounted leaves the title it found. */
  method PageLifetime(doc: Document, titles: seq<string>)
    requires |titles| > 0
    modifies doc
    ensures doc.title == old(doc.title)
  {
    var effect := new TitleEffect(doc);
    var before := doc.title;
    effect.Run(titles[0]);
    var i := 1;
    while i < |titles|
      invariant 1 <= i <= |titles|
      invariant effect.active && effect.previous == before && effect.doc == doc
      modifies doc, effect
    {
      effect.Retitle(titles[i]);
      i := i + 1;
    }
    effect.Cleanup();
  }

  /** `usePageTitle`'s effect: it sets the title and has no clean-up. */
  method SetPageTitle(doc: Document, basePage: string, userType: Option<string>, extraInfo: Option<string>)
    modifies doc
    ensures doc.title == PageTitle(basePage, userType, extraInfo)
  {
    doc.title := PageTitle(basePage, userType, extraInfo);
  }
}
