/**
  The course catalogue page (`src/app/cursos/page.tsx`): courses narrowed by
  a search term, a category, a level and two yes/no flags, each shown with a
  level colour and a five-star rating.
*/
module Courses {
  import opened Text
  import opened Seqs

  /** `Curso`. */
  datatype Curso = Curso(
    id: string,
    titulo: string,
    instrutor: string,
    plataforma: string,
    duracao: string,
    nivel: string,
    categoria: string,
    descricao: string,
    habilidades: seq<string>,
    avaliacao: real,
    numAvaliacoes: int,
    numAlunos: string,
    preco: string,
    url: string,
    thumbnail: string,
    gratuito: bool,
    certificado: bool,
    popular: bool)

  /** The filter inputs; "Todos" switches the category and level filters off. */
  datatype FiltrosCursos = FiltrosCursos(termo: string, categoria: string, nivel: string, gratuito: bool, certificado: bool)

  const Todos := "Todos"

  const SemFiltros := FiltrosCursos("", Todos, Todos, false, false)

  /** The term occurs, ignoring case, in the title, the category or some skill. */
  predicate PassaTermo(termo: string, c: Curso)
  {
    termo == []
    || Contains(Lower(c.titulo), Lower(termo))
    || Contains(Lower(c.categoria), Lower(termo))
    || exists i | 0 <= i < |c.habilidades| :: Contains(Lower(c.habilidades[i]), Lower(termo))
  }

  predicate PassaCategoria(categoria: string, c: Curso)
  {
    categoria == Todos || c.categoria == categoria
  }

  predicate PassaNivel(nivel: string, c: Curso)
  {
    nivel == Todos || c.nivel == nivel
  }

  predicate PassaGratuito(gratuito: bool, c: Curso)
  {
    !gratuito || c.gratuito
  }

  predicate PassaCertificado(certificado: bool, c: Curso)
  {
    !certificado || c.certificado
  }

  /** Every active filter keeps the course. */
  predicate Mantem(f: FiltrosCursos, c: Curso)
  {
    PassaTermo(f.termo, c) && PassaCategoria(f.categoria, c) && PassaNivel(f.nivel, c)
    && PassaGratuito(f.gratuito, c) && PassaCertificado(f.certificado, c)
  }

  /** The filters as the functions `filtrarCursos` passes to `filter`. */
  function PorTermo(termo: string): Curso -> bool { c => PassaTermo(termo, c) }
  function PorCategoria(categoria: string): Curso -> bool { c => PassaCategoria(categoria, c) }
  function PorNivel(nivel: string): Curso -> bool { c => PassaNivel(nivel, c) }
  function PorGratuito(gratuito: bool): Curso -> bool { c => PassaGratuito(gratuito, c) }
  function PorCertificado(certificado: bool): Curso -> bool { c => PassaCertificado(certificado, c) }
  function PorFiltros(f: FiltrosCursos): Curso -> bool { c => Mantem(f, c) }

  /** What `filtrarCursos` leaves: each active filter narrows the list in turn. */
  function Filtrados(cursos: seq<Curso>, f: FiltrosCursos): seq<Curso>
  {
    var r1 := if f.termo != [] then Filter(cursos, PorTermo(f.termo)) else cursos;
    var r2 := if f.categoria != Todos then Filter(r1, PorCategoria(f.categoria)) else r1;
    var r3 := if f.nivel != Todos then Filter(r2, PorNivel(f.nivel)) else r2;
    var r4 := if f.gratuito then Filter(r3, PorGratuito(f.gratuito)) else r3;
    if f.certificado then Filter(r4, PorCertificado(f.certificado)) else r4
  }

  /** The result is an order-preserving subsequence of the courses. */
  lemma FiltradosSubsequence(cursos: seq<Curso>, f: FiltrosCursos)
    ensures IsSubsequence(Filtrados(cursos, f), cursos)
  {
    var r1 := if f.termo != [] then Filter(cursos, PorTermo(f.termo)) else cursos;
    var r2 := if f.categoria != Todos then Filter(r1, PorCategoria(f.categoria)) else r1;
    var r3 := if f.nivel != Todos then Filter(r2, PorNivel(f.nivel)) else r2;
    var r4 := if f.gratuito then Filter(r3, PorGratuito(f.gratuito)) else r3;
    var r5 := if f.certificado then Filter(r4, PorCertificado(f.certificado)) else r4;
    FilterIsSubsequence(cursos, PorTermo(f.termo));
    FilterIsSubsequence(r1, PorCategoria(f.categoria));
    FilterIsSubsequence(r2, PorNivel(f.nivel));
    FilterIsSubsequence(r3, PorGratuito(f.gratuito));
    FilterIsSubsequence(r4, PorCertificado(f.certificado));
    SubsequenceReflexive(cursos);
    SubsequenceReflexive(r1);
    SubsequenceReflexive(r2);
    SubsequenceReflexive(r3);
    SubsequenceReflexive(r4);
    SubsequenceTransitive(r2, r1, cursos);
    SubsequenceTransitive(r3, r2, cursos);
    SubsequenceTransitive(r4, r3, cursos);
    SubsequenceTransitive(r5, r4, cursos);
  }

  /** The five-step chain is one filter by the conjunction of the five conditions. */
  lemma FiltradosIsOneFilter(cursos: seq<Curso>, f: FiltrosCursos)
    ensures Filtrados(cursos, f) == Filter(cursos, PorFiltros(f))
  {
    var p0: Curso -> bool := c => true;
    var p1: Curso -> bool := c => PassaTermo(f.termo, c);
    var p2: Curso -> bool := c => PassaTermo(f.termo, c) && PassaCategoria(f.categoria, c);
    var p3: Curso -> bool := c => PassaTermo(f.termo, c) && PassaCategoria(f.categoria, c)
                                  && PassaNivel(f.nivel, c);
    var p4: Curso -> bool := c => PassaTermo(f.termo, c) && PassaCategoria(f.categoria, c)
                                  && PassaNivel(f.nivel, c) && PassaGratuito(f.gratuito, c);
    FilterAllKept(cursos, p0);
    FilterStep(cursos, p0, PorTermo(f.termo), p1, f.termo != []);
    FilterStep(cursos, p1, PorCategoria(f.categoria), p2, f.categoria != Todos);
    FilterStep(cursos, p2, PorNivel(f.nivel), p3, f.nivel != Todos);
    FilterStep(cursos, p3, PorGratuito(f.gratuito), p4, f.gratuito);
    FilterStep(cursos, p4, PorCertificado(f.certificado), PorFiltros(f), f.certificado);
  }

  /** A course is shown exactly when it is in the catalogue and every filter keeps it. */
  lemma FiltradosMember(cursos: seq<Curso>, f: FiltrosCursos, c: Curso)
    ensures c in Filtrados(cursos, f) <==> c in cursos && Mantem(f, c)
  {
    var r1 := if f.termo != [] then Filter(cursos, PorTermo(f.termo)) else cursos;
    var r2 := if f.categoria != Todos then Filter(r1, PorCategoria(f.categoria)) else r1;
    var r3 := if f.nivel != Todos then Filter(r2, PorNivel(f.nivel)) else r2;
    var r4 := if f.gratuito then Filter(r3, PorGratuito(f.gratuito)) else r3;
    var r5 := if f.certificado then Filter(r4, PorCertificado(f.certificado)) else r4;
    assert c in r1 <==> c in cursos && PassaTermo(f.termo, c) by {
      FilterMember(cursos, PorTermo(f.termo), c);
    }
    assert c in r2 <==> c in r1 && PassaCategoria(f.categoria, c) by {
      FilterMember(r1, PorCategoria(f.categoria), c);
    }
    assert c in r3 <==> c in r2 && PassaNivel(f.nivel, c) by {
      FilterMember(r2, PorNivel(f.nivel), c);
    }
    assert c in r4 <==> c in r3 && PassaGratuito(f.gratuito, c) by {
      FilterMember(r3, PorGratuito(f.gratuito), c);
    }
    assert c in r5 <==> c in r4 && PassaCertificado(f.certificado, c) by {
      FilterMember(r4, PorCertificado(f.certificado), c);
    }
    assert Filtrados(cursos, f) == r5;
  }

  /** A term alone keeps a course exactly when it occurs in the title, the category or a skill, ignoring case. */
  lemma TermoIff(cursos: seq<Curso>, termo: string, c: Curso)
    requires termo != [] && c in cursos
    ensures c in Filtrados(cursos, FiltrosCursos(termo, Todos, Todos, false, false)) <==>
              Contains(Lower(c.titulo), Lower(termo)) || Contains(Lower(c.categoria), Lower(termo))
              || exists i | 0 <= i < |c.habilidades| :: Contains(Lower(c.habilidades[i]), Lower(termo))
  {
    FiltradosMember(cursos, FiltrosCursos(termo, Todos, Todos, false, false), c);
  }

  /** With filters cleared the whole catalogue is shown. */
  lemma SemFiltrosMostraTudo(cursos: seq<Curso>)
    ensures Filtrados(cursos, SemFiltros) == cursos
  {
  }

  /** A list every filter keeps passes through unchanged. */
  lemma FiltradosKeepsAll(cursos: seq<Curso>, f: FiltrosCursos)
    requires forall i :: 0 <= i < |cursos| ==> Mantem(f, cursos[i])
    ensures Filtrados(cursos, f) == cursos
  {
    FilterAllKept(cursos, PorTermo(f.termo));
    FilterAllKept(cursos, PorCategoria(f.categoria));
    FilterAllKept(cursos, PorNivel(f.nivel));
    FilterAllKept(cursos, PorGratuito(f.gratuito));
    FilterAllKept(cursos, PorCertificado(f.certificado));
  }

  /** Filtering the shown list again by the same filters changes nothing. */
  lemma FiltradosIdempotent(cursos: seq<Curso>, f: FiltrosCursos)
    ensures Filtrados(Filtrados(cursos, f), f) == Filtrados(cursos, f)
  {
    var r := Filtrados(cursos, f);
    forall i | 0 <= i < |r| ensures Mantem(f, r[i]) {
      FiltradosMember(cursos, f, r[i]);
    }
    FiltradosKeepsAll(r, f);
  }

  /** The badge colour `obterCorNivel` picks. */
  datatype CorNivel = Verde | Amarelo | Vermelho | Cinza

  function ObterCorNivel(nivel: string): CorNivel
  {
    if nivel == "Iniciante" then Verde
    else if nivel == "Intermediário" then Amarelo
    else if nivel == "Avançado" then Vermelho
    else Cinza
  }

  /** Each of the three known levels has its own colour; anything else is grey. */
  lemma CorNivelIff(nivel: string)
    ensures ObterCorNivel(nivel) == Verde <==> nivel == "Iniciante"
    ensures ObterCorNivel(nivel) == Amarelo <==> nivel == "Intermediário"
    ensures ObterCorNivel(nivel) == Vermelho <==> nivel == "Avançado"
    ensures ObterCorNivel(nivel) == Cinza <==> nivel !in ["Iniciante", "Intermediário", "Avançado"]
  {
  }

  /** `renderEstrelas`: five stars, star `i` filled when `i < Math.floor(avaliacao)`. */
  function Estrelas(avaliacao: real): (stars: seq<bool>)
    ensures |stars| == 5
  {
    seq(5, i requires 0 <= i < 5 => i < avaliacao.Floor)
  }

  function Clamp(x: int, lo: int, hi: int): int
    requires lo <= hi
  {
    if x < lo then lo else if x > hi then hi else x
  }

  function CountFilled(stars: seq<bool>): nat
  {
    if stars == [] then 0 else (if stars[0] then 1 else 0) + CountFilled(stars[1..])
  }

  /** The filled stars come first, and there are clamp(floor(avaliacao), 0, 5) of them. */
  lemma EstrelasFilled(avaliacao: real)
    ensures var n := Clamp(avaliacao.Floor, 0, 5);
            (forall i :: 0 <= i < 5 ==> (Estrelas(avaliacao)[i] <==> i < n))
            && CountFilled(Estrelas(avaliacao)) == n
  {
    var n := Clamp(avaliacao.Floor, 0, 5);
    var s := Estrelas(avaliacao);
    FilledPrefixCount(s, n);
  }

  /** A row whose first `n` entries are the true ones counts `n`. */
  lemma {:induction false} FilledPrefixCount(s: seq<bool>, n: int)
    requires 0 <= n <= |s|
    requires forall i :: 0 <= i < |s| ==> (s[i] <==> i < n)
    ensures CountFilled(s) == n
  {
    if s != [] {
      FilledPrefixCount(s[1..], if n > 0 then n - 1 else 0);
    }
  }

  /** The result line: "<n> curso(s) encontrado(s)". */
  function RotuloContagem(n: nat): string
  {
    var plural := if n != 1 then "s" else "";
    DecimalString(n) + " curso" + plural + " encontrado" + plural
  }

  /** The label is singular exactly when one course is shown. */
  lemma RotuloSingularIff(n: nat)
    ensures var r := RotuloContagem(n);
            (n == 1 <==> r == "1 curso encontrado")
            && (n != 1 <==> r[|r| - 1] == 's')
  {
    var r := RotuloContagem(n);
    if n == 1 {
      assert DecimalString(1) == "1";
    } else {
      assert r[|r| - 1] == 's';
      assert r != "1 curso encontrado" by {
        assert "1 curso encontrado"[17] == 'o';
      }
    }
  }

  /** The page's state. */
  class CatalogoCursos {
    var termo: string
    var cursos: seq<Curso>
    var cursosFiltrados: seq<Curso>
    var carregando: bool
    var filtroCategoria: string
    var filtroNivel: string
    var filtroGratuito: bool
    var filtroCertificado: bool

    function FiltrosAtuais(): FiltrosCursos
      reads this
    {
      FiltrosCursos(termo, filtroCategoria, filtroNivel, filtroGratuito, filtroCertificado)
    }

    /** After every change the filter effect has run. */
    ghost predicate Valid()
      reads this
    {
      cursosFiltrados == Filtrados(cursos, FiltrosAtuais())
    }

    /** The first render: the loading effect starts with every filter off. */
    constructor()
      ensures Valid() && carregando && cursos == [] && FiltrosAtuais() == SemFiltros
    {
      termo := "";
      cursos := [];
      cursosFiltrados := [];
      carregando := true;
      filtroCategoria := Todos;
      filtroNivel := Todos;
      filtroGratuito := false;
      filtroCertificado := false;
    }

    /** `filtrarCursos`: `resultado` is narrowed by each active filter in turn. */
    method FiltrarCursos()
      modifies this
      ensures Valid()
      ensures cursos == old(cursos) && FiltrosAtuais() == old(FiltrosAtuais()) && carregando == old(carregando)
    {
      var resultado := cursos;
      if termo != [] {
        resultado := Filter(resultado, PorTermo(termo));
      }
      if filtroCategoria != Todos {
        resultado := Filter(resultado, PorCategoria(filtroCategoria));
      }
      if filtroNivel != Todos {
        resultado := Filter(resultado, PorNivel(filtroNivel));
      }
      if filtroGratuito {
        resultado := Filter(resultado, PorGratuito(filtroGratuito));
      }
      if filtroCertificado {
        resultado := Filter(resultado, PorCertificado(filtroCertificado));
      }
      cursosFiltrados := resultado;
    }

    /** The one-second load at mount, followed by the filter effect. */
    method CarregarCursos(lista: seq<Curso>)
      modifies this
      ensures Valid() && cursos == lista && !carregando
      ensures FiltrosAtuais() == old(FiltrosAtuais())
    {
      cursos := lista;
      cursosFiltrados := lista;
      carregando := false;
      FiltrarCursos();
    }

    /** Editing any filter input; the effect re-filters. */
    method AlterarFiltros(f: FiltrosCursos)
      modifies this
      ensures Valid() && FiltrosAtuais() == f
      ensures cursos == old(cursos) && carregando == old(carregando)
    {
      termo, filtroCategoria, filtroNivel, filtroGratuito, filtroCertificado :=
        f.termo, f.categoria, f.nivel, f.gratuito, f.certificado;
      FiltrarCursos();
    }

    /** "Limpar Filtros": every filter back to its default and the whole catalogue shown. */
    method LimparFiltros()
      modifies this
      ensures Valid() && FiltrosAtuais() == SemFiltros && cursosFiltrados == cursos
      ensures cursos == old(cursos) && carregando == old(carregando)
    {
      AlterarFiltros(SemFiltros);
      SemFiltrosMostraTudo(cursos);
    }
  }
}
