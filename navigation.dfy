/**
 * The shared navigation bar (packages/shared/js/navigation.js): which service
 * the page belongs to, and the structure of the bar and the footer it renders.
 * The markup itself and the DOM insertion in `init` are not modelled; the
 * rendered HTML is given by the values below.
 */
module Navigation {
  import opened Wrappers
  import opened Platform
  import EventBus

  datatype Brand = Brand(name: string, href: string)
  datatype Link = Link(name: string, href: string, service: string, icon: string)
  datatype NavConfig = NavConfig(brand: Brand, links: seq<Link>)

  /** `NAV_CONFIG` as shipped. */
  const NAV_CONFIG := NavConfig(
    Brand("Micro Frontend", "/"),
    [ Link("Booking", "/booking", "booking", "\U{1F4C5}"),
      Link("Catalogue", "/catalogue", "catalogue", "\U{1F4E6}") ])

  /** No two links name the same service. */
  ghost predicate DistinctServices(links: seq<Link>) {
    forall i, j :: 0 <= i < j < |links| ==> links[i].service != links[j].service
  }

  /** Link `i` is the first whose `href` is a prefix of `path`. */
  ghost predicate FirstMatchAt(links: seq<Link>, path: string, i: int) {
    && 0 <= i < |links|
    && StartsWith(path, links[i].href)
    && forall j :: 0 <= j < i ==> !StartsWith(path, links[j].href)
  }

  /**
   * `getCurrentService()`: the service of the first link whose `href` is a
   * prefix of `path`, or null when there is none.
   */
  function CurrentService(links: seq<Link>, path: string): (current: Option<string>)
    ensures current.None? <==> forall i :: 0 <= i < |links| ==> !StartsWith(path, links[i].href)
    ensures current.Some? ==> exists i :: FirstMatchAt(links, path, i) && current.value == links[i].service
  {
    if links == [] then None
    else if StartsWith(path, links[0].href) then Some(links[0].service)
    else
      var rest := CurrentService(links[1..], path);
      assert forall i :: 1 <= i < |links| ==> links[i] == links[1..][i - 1];
      assert rest.Some? ==> exists i :: FirstMatchAt(links, path, i) && rest.value == links[i].service by {
        if rest.Some? {
          var k :| FirstMatchAt(links[1..], path, k) && rest.value == links[1..][k].service;
          assert FirstMatchAt(links, path, k + 1);
        }
      }
      rest
  }

  /** One `<li>` of the bar. */
  datatype NavItem = NavItem(href: string, name: string, icon: string, active: bool)

  /** The bar: the brand, the optional service badge, the items. */
  datatype NavBar = NavBar(brand: Brand, badge: Option<string>, items: seq<NavItem>)

  /** The footer: the year and the optional "Currently viewing" text. */
  datatype Footer = Footer(year: int, viewing: Option<string>)

  /** `currentService ? … : ''`: shown for a non-null, non-empty service. */
  function Shown(current: Option<string>): Option<string> {
    if current.Some? && current.value != "" then current else None
  }

  /** The item `buildNavigation` renders for `link`. */
  function Item(link: Link, current: Option<string>): NavItem {
    NavItem(link.href, link.name, link.icon, current == Some(link.service))
  }

  /** `buildNavigation()` on a page at `path`. */
  function BuildNavigation(cfg: NavConfig, path: string): (bar: NavBar)
    ensures bar.brand == cfg.brand
    ensures |bar.items| == |cfg.links|
    ensures forall i :: 0 <= i < |cfg.links| ==>
      bar.items[i].href == cfg.links[i].href && bar.items[i].name == cfg.links[i].name && bar.items[i].icon == cfg.links[i].icon
  {
    var current := CurrentService(cfg.links, path);
    NavBar(cfg.brand, Shown(current), seq(|cfg.links|, i requires 0 <= i < |cfg.links| => Item(cfg.links[i], current)))
  }

  /** `buildFooter()` on a page at `path`, in `year`. */
  function BuildFooter(cfg: NavConfig, path: string, year: int): Footer {
    Footer(year, Shown(CurrentService(cfg.links, path)))
  }

  /**
   * The items marked active are exactly the links of the current service: with
   * distinct services, one item when the page belongs to a configured service
   * and none otherwise.
   */
  lemma ActiveItems(cfg: NavConfig, path: string)
    requires DistinctServices(cfg.links)
    ensures var bar := BuildNavigation(cfg, path);
      forall i, j :: 0 <= i < j < |bar.items| ==> !(bar.items[i].active && bar.items[j].active)
    ensures var bar := BuildNavigation(cfg, path);
      CurrentService(cfg.links, path).None? ==> forall i :: 0 <= i < |bar.items| ==> !bar.items[i].active
    ensures var bar := BuildNavigation(cfg, path);
      CurrentService(cfg.links, path).Some? ==>
        exists i :: 0 <= i < |bar.items| && bar.items[i].active && cfg.links[i].service == CurrentService(cfg.links, path).value
  {
    var bar := BuildNavigation(cfg, path);
    var current := CurrentService(cfg.links, path);
    forall i | 0 <= i < |bar.items| ensures bar.items[i].active <==> current == Some(cfg.links[i].service) {
      assert bar.items[i] == Item(cfg.links[i], current);
    }
    if current.Some? {
      var k :| FirstMatchAt(cfg.links, path, k) && current.value == cfg.links[k].service;
      assert bar.items[k].active;
    }
  }

  /** The badge and the footer text show the current service exactly when it is non-null and non-empty. */
  lemma BadgeAndFooter(cfg: NavConfig, path: string, year: int)
    ensures BuildNavigation(cfg, path).badge == BuildFooter(cfg, path, year).viewing
    ensures BuildFooter(cfg, path, year).viewing.Some? <==>
      CurrentService(cfg.links, path).Some? && CurrentService(cfg.links, path).value != ""
    ensures BuildFooter(cfg, path, year).viewing.Some? ==> BuildFooter(cfg, path, year).viewing == CurrentService(cfg.links, path)
  {
  }

  /**
   * With the shipped configuration the bar agrees with the event bus: a page
   * has a current service exactly when the bus's identity is not `unknown`, and
   * then the two are the same.
   */
  lemma NavigationAgreesWithBus(path: string)
    ensures CurrentService(NAV_CONFIG.links, path) ==
      if EventBus.DetectService(path) == EventBus.UNKNOWN then None else Some(EventBus.DetectService(path))
  {
    var links := NAV_CONFIG.links;
    assert links[0].href == "/booking" && links[1].href == "/catalogue";
    assert links[1..][0] == links[1] && links[1..][1..] == [];
  }

  /** With the shipped configuration the badge is present exactly when the page has a current service. */
  lemma ShippedBadge(path: string)
    ensures BuildNavigation(NAV_CONFIG, path).badge.Some? <==> CurrentService(NAV_CONFIG.links, path).Some?
    ensures DistinctServices(NAV_CONFIG.links)
  {
    NavigationAgreesWithBus(path);
  }
}
