/**
  The mobile page frame (`frontend/src/components/mobile/MobileLayout.tsx`):
  the route table, which route counts as active for the current pathname,
  the header title, the bottom navigation and the side-menu state.
*/
module MobileLayout {
  import opened Wrappers
  import opened Text

  /** One entry of `NAVIGATION_ROUTES` (the icon is left out). */
  datatype Route = Route(path: string, name: string, description: string)

  const Inicio := Route("/", "Início", "Página inicial")
  const Curriculo := Route("/curriculo", "Currículo", "Análise de currículo")
  const Entrevista := Route("/entrevista", "Entrevista", "Simulação de entrevistas")
  const Vagas := Route("/vagas", "Vagas", "Busca de oportunidades")
  const Cursos := Route("/cursos", "Cursos", "Treinamentos e capacitação")
  const Perfil := Route("/perfil", "Perfil", "Meu perfil")

  /** `NAVIGATION_ROUTES`, in order. */
  const NavigationRoutes: seq<Route> := [Inicio, Curriculo, Entrevista, Vagas, Cursos, Perfil]

  const DefaultTitle := "Mentor de Carreira"

  /** A route is active on its own path, or, except for "/", on any pathname it is a prefix of. */
  predicate IsActive(pathname: string, route: Route)
  {
    pathname == route.path || (route.path != "/" && StartsWith(pathname, route.path))
  }

  /** `NAVIGATION_ROUTES.find(...)`: the index of the first active route. */
  function ActiveIndex(routes: seq<Route>, pathname: string): (r: Option<nat>)
    ensures r.Some? ==> r.value < |routes| && IsActive(pathname, routes[r.value])
                        && forall j :: 0 <= j < r.value ==> !IsActive(pathname, routes[j])
    ensures r.None? ==> forall j :: 0 <= j < |routes| ==> !IsActive(pathname, routes[j])
  {
    if routes == [] then None
    else if IsActive(pathname, routes[0]) then Some(0)
    else match ActiveIndex(routes[1..], pathname)
      case Some(i) => Some(i + 1)
      case None => None
  }

  /** `activeRoute`. */
  function ActiveRoute(pathname: string): Option<Route>
  {
    match ActiveIndex(NavigationRoutes, pathname)
    case Some(i) => Some(NavigationRoutes[i])
    case None => None
  }

  /** "/" is active only on the pathname "/" itself. */
  lemma RootOnlyExact(pathname: string)
    ensures IsActive(pathname, Inicio) <==> pathname == "/"
  {
  }

  /** Two paths that differ at a position shared by both: neither is a prefix of the other. */
  lemma Diverge(p: string, q: string, k: nat)
    requires k < |p| && k < |q| && p[k] != q[k]
    ensures !StartsWith(p, q) && !StartsWith(q, p)
  {
  }

  /** No path of the table other than "/" is a prefix of another. */
  lemma PathsPrefixFree(i: nat, j: nat)
    requires 0 < i < |NavigationRoutes| && 0 < j < |NavigationRoutes| && i != j
    ensures !StartsWith(NavigationRoutes[j].path, NavigationRoutes[i].path)
  {
    var p, q := NavigationRoutes[i].path, NavigationRoutes[j].path;
    if (i == 1 && j == 4) || (i == 4 && j == 1) {
      Diverge(p, q, 4);
    } else {
      Diverge(p, q, 1);
    }
  }

  /** With this table at most one route is active for any pathname. */
  lemma AtMostOneActive(pathname: string, i: nat, j: nat)
    requires i < |NavigationRoutes| && j < |NavigationRoutes|
    requires IsActive(pathname, NavigationRoutes[i]) && IsActive(pathname, NavigationRoutes[j])
    ensures i == j
  {
    // When one of the two is "/", the pathname is "/" and no longer path fits in it.
    if i != j && i != 0 && j != 0 {
      var p, q := NavigationRoutes[i].path, NavigationRoutes[j].path;
      if |p| <= |q| {
        PrefixesNest(pathname, p, q);
        PathsPrefixFree(i, j);
      } else {
        PrefixesNest(pathname, q, p);
        PathsPrefixFree(j, i);
      }
    }
  }

  /** The route at index `k` is active, so it is the active route. */
  lemma ActiveRouteIs(pathname: string, k: nat)
    requires k < |NavigationRoutes| && IsActive(pathname, NavigationRoutes[k])
    ensures ActiveRoute(pathname) == Some(NavigationRoutes[k])
  {
    var r := ActiveIndex(NavigationRoutes, pathname);
    assert r.Some?;
    AtMostOneActive(pathname, r.value, k);
  }

  /** The prefix test ignores segment boundaries: "/cursosx" counts as the courses page. */
  lemma CursosPrefixQuirk()
    ensures ActiveRoute("/cursosx") == Some(Cursos)
  {
    var s := "/cursosx";
    assert s[..|Cursos.path|] == Cursos.path;
    ActiveRouteIs(s, 4);
  }

  /** The résumé-analysis page "/curriculo/analise" counts as the résumé page. */
  lemma CurriculoSubpage()
    ensures ActiveRoute("/curriculo/analise") == Some(Curriculo)
  {
    var s := "/curriculo/analise";
    assert s[..|Curriculo.path|] == Curriculo.path;
    ActiveRouteIs(s, 1);
  }

  /** `pageTitle`: a non-empty `title` prop, else the active route's label, else the default. */
  function PageTitle(title: Option<string>, pathname: string): string
  {
    if title.Some? && title.value != [] then title.value
    else match ActiveRoute(pathname)
      case Some(r) => r.name
      case None => DefaultTitle
  }

  lemma PageTitleSpec(title: Option<string>, pathname: string)
    ensures title.Some? && title.value != [] ==> PageTitle(title, pathname) == title.value
    ensures (title.None? || title.value == []) && ActiveIndex(NavigationRoutes, pathname).Some? ==>
              PageTitle(title, pathname) == NavigationRoutes[ActiveIndex(NavigationRoutes, pathname).value].name
    ensures (title.None? || title.value == []) && (forall j :: 0 <= j < |NavigationRoutes| ==> !IsActive(pathname, NavigationRoutes[j])) ==>
              PageTitle(title, pathname) == DefaultTitle
  {
  }

  /** The bottom bar: `NAVIGATION_ROUTES.slice(0, 4)`. */
  function BottomNavigation(): (r: seq<Route>)
    ensures |r| == 4 && forall i :: 0 <= i < 4 ==> r[i] == NavigationRoutes[i]
  {
    NavigationRoutes[..4]
  }

  /** The bottom bar offers the home, résumé, interview and jobs pages, and not courses or profile. */
  lemma BottomNavigationPaths()
    ensures forall r :: r in BottomNavigation() ==> r.path in ["/", "/curriculo", "/entrevista", "/vagas"]
    ensures Cursos !in BottomNavigation() && Perfil !in BottomNavigation()
  {
    var b := BottomNavigation();
    assert b == [Inicio, Curriculo, Entrevista, Vagas];
  }

  /** A navigation request made through the router. */
  datatype RouterCall = Push(path: string) | Back

  /** The component's state: the two `useState` fields, the pathname it renders for, and the router calls made. */
  class LayoutState {
    var isMenuOpen: bool
    var isScrolled: bool
    var pathname: string
    var routerCalls: seq<RouterCall>

    constructor(pathname: string)
      ensures !isMenuOpen && !isScrolled && this.pathname == pathname && routerCalls == []
    {
      isMenuOpen := false;
      isScrolled := false;
      this.pathname := pathname;
      routerCalls := [];
    }

    /** The menu button. */
    method OpenMenu()
      modifies this
      ensures isMenuOpen
      ensures isScrolled == old(isScrolled) && pathname == old(pathname) && routerCalls == old(routerCalls)
    {
      isMenuOpen := true;
    }

    /** The overlay and the close button. */
    method CloseMenu()
      modifies this
      ensures !isMenuOpen
      ensures isScrolled == old(isScrolled) && pathname == old(pathname) && routerCalls == old(routerCalls)
    {
      isMenuOpen := false;
    }

    /** `handleNavigation`: push the path and close the menu. */
    method HandleNavigation(path: string)
      modifies this
      ensures !isMenuOpen && routerCalls == old(routerCalls) + [Push(path)]
      ensures isScrolled == old(isScrolled) && pathname == old(pathname)
    {
      routerCalls := routerCalls + [Push(path)];
      isMenuOpen := false;
    }

    /** The back button in the header. */
    method GoBack()
      modifies this
      ensures routerCalls == old(routerCalls) + [Back]
      ensures isMenuOpen == old(isMenuOpen) && isScrolled == old(isScrolled) && pathname == old(pathname)
    {
      routerCalls := routerCalls + [Back];
    }

    /** The settings button pushes "/configuracoes" and leaves the menu as it is. */
    method OpenSettings()
      modifies this
      ensures routerCalls == old(routerCalls) + [Push("/configuracoes")]
      ensures isMenuOpen == old(isMenuOpen) && isScrolled == old(isScrolled) && pathname == old(pathname)
    {
      routerCalls := routerCalls + [Push("/configuracoes")];
    }

    /**
      A render with the router's current pathname. The `[pathname]` effect
      runs, closing the menu, only when the pathname differs from the one
      it last ran for.
    */
    method OnPathnameChange(newPathname: string)
      modifies this
      ensures pathname == newPathname
      ensures newPathname != old(pathname) ==> !isMenuOpen
      ensures newPathname == old(pathname) ==> isMenuOpen == old(isMenuOpen)
      ensures isScrolled == old(isScrolled) && routerCalls == old(routerCalls)
    {
      if newPathname != pathname {
        pathname := newPathname;
        isMenuOpen := false;
      }
    }

    /** The scroll listener: the header is marked scrolled beyond 10 pixels. */
    method OnScroll(scrollY: real)
      modifies this
      ensures isScrolled <==> scrollY > 10.0
      ensures isMenuOpen == old(isMenuOpen) && pathname == old(pathname) && routerCalls == old(routerCalls)
    {
      isScrolled := scrollY > 10.0;
    }
  }
}
