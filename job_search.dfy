/**
  The job-search page (`src/app/vagas/busca/page.tsx`): a list of job
  postings narrowed by a search term, a location, a contract type and an
  experience option, shown sorted by compatibility with a colour band.
*/
module JobSearch {
  import opened Wrappers
  import opened Text
  import opened Seqs

  /** `Vaga`: `compatibilidade` is optional. */
  datatype Vaga = Vaga(
    id: string,
    titulo: string,
    empresa: string,
    localizacao: string,
    salario: string,
    tipo: string,
    experiencia: string,
    descricao: string,
    requisitos: seq<string>,
    beneficios: seq<string>,
    dataPublicacao: string,
    url: string,
    compatibilidade: Option<int>)

  /** The five filter inputs of the page; the empty string switches one off. */
  datatype Filtros = Filtros(termo: string, localizacao: string, salario: string, tipo: string, experiencia: string)

  const SemFiltros := Filtros("", "", "", "", "")

  /** The only experience option that filters anything. */
  const SemExperiencia := "sem-experiencia"

  /** The term occurs, ignoring case, in the title, the company or the description. */
  predicate PassaTermo(termo: string, v: Vaga)
  {
    termo == []
    || Contains(Lower(v.titulo), Lower(termo))
    || Contains(Lower(v.empresa), Lower(termo))
    || Contains(Lower(v.descricao), Lower(termo))
  }

  predicate PassaLocalizacao(localizacao: string, v: Vaga)
  {
    localizacao == [] || Contains(Lower(v.localizacao), Lower(localizacao))
  }

  predicate PassaTipo(tipo: string, v: Vaga)
  {
    tipo == [] || v.tipo == tipo
  }

  /** Only "sem-experiencia" filters: it keeps experience texts mentioning "não" or "sem". */
  predicate PassaExperiencia(experiencia: string, v: Vaga)
  {
    experiencia != SemExperiencia
    || Contains(Lower(v.experiencia), "não")
    || Contains(Lower(v.experiencia), "sem")
  }

  /** Every active filter keeps the posting; the salary filter plays no part. */
  predicate Mantem(f: Filtros, v: Vaga)
  {
    PassaTermo(f.termo, v) && PassaLocalizacao(f.localizacao, v)
    && PassaTipo(f.tipo, v) && PassaExperiencia(f.experiencia, v)
  }

  /** What `filtrarVagas` leaves: the postings every filter keeps, in their order. */
  function Filtradas(vagas: seq<Vaga>, f: Filtros): seq<Vaga>
  {
    Filter(vagas, v => Mantem(f, v))
  }

  /**
    The result is an order-preserving subsequence of the postings, and a
    posting is in it exactly when it is a posting every filter keeps.
  */
  lemma FiltradasSpec(vagas: seq<Vaga>, f: Filtros)
    ensures IsSubsequence(Filtradas(vagas, f), vagas)
    ensures forall v :: v in Filtradas(vagas, f) <==> v in vagas && Mantem(f, v)
  {
    FilterIsSubsequence(vagas, v => Mantem(f, v));
    forall v ensures v in Filtradas(vagas, f) <==> v in vagas && Mantem(f, v) {
      FilterMember(vagas, v => Mantem(f, v), v);
    }
  }

  /** With every filter cleared the whole list is shown. */
  lemma SemFiltrosMostraTudo(vagas: seq<Vaga>)
    ensures Filtradas(vagas, SemFiltros) == vagas
  {
    FilterAllKept(vagas, v => Mantem(SemFiltros, v));
  }

  /** The salary filter never changes the result. */
  lemma SalarioIgnorado(vagas: seq<Vaga>, f: Filtros, salario: string)
    ensures Filtradas(vagas, f.(salario := salario)) == Filtradas(vagas, f)
  {
    var g := f.(salario := salario);
    FilterCongruent(vagas, v => Mantem(g, v), v => Mantem(f, v));
  }

  /** Any experience option but "sem-experiencia" (such as "junior" or "pleno") filters nothing. */
  lemma OutraExperienciaIgnorada(vagas: seq<Vaga>, f: Filtros)
    requires f.experiencia != SemExperiencia
    ensures Filtradas(vagas, f) == Filtradas(vagas, f.(experiencia := ""))
  {
    var g := f.(experiencia := "");
    FilterCongruent(vagas, v => Mantem(f, v), v => Mantem(g, v));
  }

  /** Filtering the shown list again by the same filters changes nothing. */
  lemma FiltradasIdempotent(vagas: seq<Vaga>, f: Filtros)
    ensures Filtradas(Filtradas(vagas, f), f) == Filtradas(vagas, f)
  {
    FilterIdempotent(vagas, v => Mantem(f, v));
  }

  /**
    The chain of `filtrarVagas` over the list and filters it reads: each
    active filter narrows `resultado` in turn.
  */
  method FiltrarResultado(vagas: seq<Vaga>, f: Filtros) returns (resultado: seq<Vaga>)
    ensures resultado == Filtradas(vagas, f)
  {
    ghost var pTermo: Vaga -> bool := v => PassaTermo(f.termo, v);
    ghost var pLocal: Vaga -> bool := v => PassaLocalizacao(f.localizacao, v);
    ghost var pTipo: Vaga -> bool := v => PassaTipo(f.tipo, v);
    ghost var pExperiencia: Vaga -> bool := v => PassaExperiencia(f.experiencia, v);
    ghost var k2: Vaga -> bool := v => pTermo(v) && pLocal(v);
    ghost var k3: Vaga -> bool := v => k2(v) && pTipo(v);
    resultado := vagas;
    FilterAllKept(vagas, v => true);
    FilterStep(vagas, v => true, pTermo, pTermo, f.termo != []);
    if f.termo != [] {
      resultado := Filter(resultado, v => PassaTermo(f.termo, v));
    }
    FilterStep(vagas, pTermo, pLocal, k2, f.localizacao != []);
    if f.localizacao != [] {
      resultado := Filter(resultado, v => PassaLocalizacao(f.localizacao, v));
    }
    FilterStep(vagas, k2, pTipo, k3, f.tipo != []);
    if f.tipo != [] {
      resultado := Filter(resultado, v => PassaTipo(f.tipo, v));
    }
    FilterStep(vagas, k3, pExperiencia, v => Mantem(f, v), f.experiencia == SemExperiencia);
    if f.experiencia != [] {
      if f.experiencia == SemExperiencia {
        resultado := Filter(resultado, v => PassaExperiencia(f.experiencia, v));
      }
    }
  }

  /** `|| 0`: an absent (or zero) compatibility sorts as 0. */
  function Peso(v: Vaga): int
  {
    if v.compatibilidade.Some? then v.compatibilidade.value else 0
  }

  ghost predicate NonIncreasing(s: seq<Vaga>)
  {
    forall k, l :: 0 <= k < l < |s| ==> Peso(s[k]) >= Peso(s[l])
  }

  /** While `s[j]` is being moved down into `s[..i + 1]`: the others are in order ... */
  ghost predicate InOrderBesides(s: seq<Vaga>, i: nat, j: nat)
    requires i < |s|
  {
    forall k, l :: 0 <= k < l <= i && k != j && l != j ==> Peso(s[k]) >= Peso(s[l])
  }

  /** ... and it outweighs everything it has passed. */
  ghost predicate OutweighsPassed(s: seq<Vaga>, i: nat, j: nat)
    requires j <= i < |s|
  {
    forall l :: j < l <= i ==> Peso(s[j]) > Peso(s[l])
  }

  /** The test `Peso(v) == w`, as a function to filter by. */
  function PesoIgual(w: int): Vaga -> bool { v => Peso(v) == w }

  /** The postings of weight `w`, in their order. */
  function ComPeso(s: seq<Vaga>, w: int): seq<Vaga>
  {
    Filter(s, PesoIgual(w))
  }

  /** Postings of equal weight appear in the same relative order in `s` and `t`. */
  ghost predicate EmpatesNaOrdem(s: seq<Vaga>, t: seq<Vaga>)
  {
    forall w :: ComPeso(s, w) == ComPeso(t, w)
  }

  /** Exchanging two neighbours of different weight keeps the order within every weight. */
  lemma ExchangeKeepsTies(s: seq<Vaga>, j: nat)
    requires 0 < j < |s| && Peso(s[j - 1]) != Peso(s[j])
    ensures EmpatesNaOrdem(s[j - 1 := s[j]][j := s[j - 1]], s)
  {
    var t := s[j - 1 := s[j]][j := s[j - 1]];
    var front, x, y, back := s[..j - 1], s[j - 1], s[j], s[j + 1..];
    assert s == front + [x] + [y] + back;
    assert t == front + [y] + [x] + back;
    forall w ensures ComPeso(t, w) == ComPeso(s, w) {
      FilterExchange(front, x, y, back, PesoIgual(w));
    }
  }

  /** One exchange moves the entry one place down and keeps both facts. */
  lemma ExchangeStep(s: seq<Vaga>, i: nat, j: nat)
    requires 0 < j <= i < |s|
    requires InOrderBesides(s, i, j) && OutweighsPassed(s, i, j)
    requires Peso(s[j - 1]) < Peso(s[j])
    ensures InOrderBesides(s[j - 1 := s[j]][j := s[j - 1]], i, j - 1)
    ensures OutweighsPassed(s[j - 1 := s[j]][j := s[j - 1]], i, j - 1)
  {
  }

  /** Once the entry stops, `s[..i + 1]` is in order. */
  lemma InsertionDone(s: seq<Vaga>, i: nat, j: nat)
    requires j <= i < |s|
    requires InOrderBesides(s, i, j) && OutweighsPassed(s, i, j)
    requires j == 0 || Peso(s[j - 1]) >= Peso(s[j])
    ensures NonIncreasing(s[..i + 1])
  {
  }

  /**
    The display's `sort((a, b) => (b.compatibilidade || 0) - (a.compatibilidade || 0))`,
    which rearranges the filtered array in place. `Array.prototype.sort` is
    stable, so postings of equal weight keep their order.
  */
  method OrdenarPorCompatibilidade(a: array<Vaga>)
    modifies a
    ensures NonIncreasing(a[..])
    ensures multiset(a[..]) == multiset(old(a[..]))
    ensures EmpatesNaOrdem(a[..], old(a[..]))
  {
    for i := 0 to a.Length
      invariant NonIncreasing(a[..i])
      invariant multiset(a[..]) == multiset(old(a[..]))
      invariant EmpatesNaOrdem(a[..], old(a[..]))
    {
      var j := i;
      while j > 0 && Peso(a[j - 1]) < Peso(a[j])
        invariant 0 <= j <= i
        invariant multiset(a[..]) == multiset(old(a[..]))
        invariant EmpatesNaOrdem(a[..], old(a[..]))
        invariant InOrderBesides(a[..], i, j) && OutweighsPassed(a[..], i, j)
      {
        ExchangeStep(a[..], i, j);
        ExchangeKeepsTies(a[..], j);
        Swap(a, j - 1, j);
        j := j - 1;
      }
      InsertionDone(a[..], i, j);
    }
    assert a[..a.Length] == a[..];
  }

  /** Exchanges two entries. */
  method Swap(a: array<Vaga>, i: nat, j: nat)
    modifies a
    requires i < j < a.Length
    ensures a[..] == old(a[..])[i := old(a[j])][j := old(a[i])]
    ensures multiset(a[..]) == multiset(old(a[..]))
  {
    a[i], a[j] := a[j], a[i];
  }

  /** The class `obterCorCompatibilidade` picks, by its colour. */
  datatype Cor = Cinza | Verde | Amarelo | Vermelho

  function CorCompatibilidade(compatibilidade: Option<int>): Cor
  {
    if compatibilidade.None? || compatibilidade.value == 0 then Cinza
    else if compatibilidade.value >= 80 then Verde
    else if compatibilidade.value >= 60 then Amarelo
    else Vermelho
  }

  /** Absent or 0 is grey, 80 and above green, 60 to 79 yellow, any other value red. */
  lemma CorBands(c: Option<int>)
    ensures CorCompatibilidade(c) == Cinza <==> c.None? || c.value == 0
    ensures CorCompatibilidade(c) == Verde <==> c.Some? && c.value >= 80
    ensures CorCompatibilidade(c) == Amarelo <==> c.Some? && 60 <= c.value < 80
    ensures CorCompatibilidade(c) == Vermelho <==> c.Some? && c.value != 0 && c.value < 60
  {
  }

  /** The page's state. */
  class BuscaVagas {
    var termo: string
    var localizacao: string
    var vagas: seq<Vaga>
    var vagasFiltradas: seq<Vaga>
    var carregando: bool
    var filtroSalario: string
    var filtroTipo: string
    var filtroExperiencia: string
    /** The list and filters a running search will apply when its timer fires. */
    var pendente: Option<(seq<Vaga>, Filtros)>

    function FiltrosAtuais(): Filtros
      reads this
    {
      Filtros(termo, localizacao, filtroSalario, filtroTipo, filtroExperiencia)
    }

    /** After every change the filter effect has run, so the shown list is the filtered one. */
    ghost predicate Valid()
      reads this
    {
      vagasFiltradas == Filtradas(vagas, FiltrosAtuais())
    }

    /** The first render: the loading effect starts. */
    constructor()
      ensures Valid() && carregando && vagas == [] && FiltrosAtuais() == SemFiltros && pendente == None
    {
      termo := "";
      localizacao := "";
      vagas := [];
      vagasFiltradas := [];
      carregando := true;
      filtroSalario := "";
      filtroTipo := "";
      filtroExperiencia := "";
      pendente := None;
    }

    /** `filtrarVagas`: the shown list becomes the filtered one. */
    method FiltrarVagas()
      modifies this
      ensures vagasFiltradas == Filtradas(vagas, FiltrosAtuais())
      ensures Valid()
      ensures termo == old(termo) && localizacao == old(localizacao) && vagas == old(vagas)
      ensures carregando == old(carregando) && filtroSalario == old(filtroSalario)
      ensures filtroTipo == old(filtroTipo) && filtroExperiencia == old(filtroExperiencia)
      ensures pendente == old(pendente)
    {
      var resultado := FiltrarResultado(vagas, FiltrosAtuais());
      vagasFiltradas := resultado;
    }

    /** The one-second load at mount: the list arrives, then the filter effect re-runs. */
    method CarregarVagas(lista: seq<Vaga>)
      modifies this
      ensures Valid() && vagas == lista && !carregando
      ensures FiltrosAtuais() == old(FiltrosAtuais()) && pendente == old(pendente)
    {
      vagas := lista;
      vagasFiltradas := lista;
      carregando := false;
      FiltrarVagas();
    }

    /** Editing any of the filter inputs; the effect re-filters. */
    method AlterarFiltros(f: Filtros)
      modifies this
      ensures Valid() && FiltrosAtuais() == f
      ensures vagas == old(vagas) && carregando == old(carregando) && pendente == old(pendente)
    {
      termo, localizacao, filtroSalario, filtroTipo, filtroExperiencia :=
        f.termo, f.localizacao, f.salario, f.tipo, f.experiencia;
      FiltrarVagas();
    }

    /** "Limpar Filtros": every filter is emptied and the full list comes back. */
    method LimparFiltros()
      modifies this
      ensures Valid() && FiltrosAtuais() == SemFiltros && vagasFiltradas == vagas
      ensures vagas == old(vagas) && carregando == old(carregando) && pendente == old(pendente)
    {
      AlterarFiltros(SemFiltros);
      SemFiltrosMostraTudo(vagas);
    }

    /**
      `buscarVagas`: the search button (disabled while loading) starts the
      800 ms wait. The timer's callback is the `filtrarVagas` of the render
      that was clicked, so the list and filters of that moment are kept in
      `pendente`.
    */
    method BuscarVagas()
      modifies this
      requires !carregando
      ensures carregando && pendente == Some((old(vagas), old(FiltrosAtuais())))
      ensures vagas == old(vagas) && vagasFiltradas == old(vagasFiltradas)
      ensures FiltrosAtuais() == old(FiltrosAtuais())
    {
      carregando := true;
      pendente := Some((vagas, FiltrosAtuais()));
    }

    /**
      The end of that wait: the shown list is filtered with the list and
      filters captured at the click, whatever the inputs hold now, and
      loading stops.
    */
    method ConcluirBusca()
      modifies this
      requires pendente.Some?
      ensures vagasFiltradas == Filtradas(old(pendente).value.0, old(pendente).value.1)
      ensures !carregando && pendente == None
      ensures vagas == old(vagas) && FiltrosAtuais() == old(FiltrosAtuais())
      ensures old(pendente) == Some((vagas, FiltrosAtuais())) ==> Valid()
    {
      var (lista, f) := pendente.value;
      var resultado := FiltrarResultado(lista, f);
      vagasFiltradas := resultado;
      carregando := false;
      pendente := None;
    }
  }

  /**
    A search during which the filters are edited: the edit re-filters at
    once, but when the search's timer fires the list goes back to what the
    filters of the click select.
  */
  method BuscaComFiltrosAlterados(p: BuscaVagas, f: Filtros)
    modifies p
    requires !p.carregando
    ensures p.FiltrosAtuais() == f && !p.carregando
    ensures p.vagasFiltradas == Filtradas(old(p.vagas), old(p.FiltrosAtuais()))
  {
    p.BuscarVagas();
    p.AlterarFiltros(f);
    p.ConcluirBusca();
  }
}
