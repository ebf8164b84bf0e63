/**
  The two phrase tables (`VOICE_COMMANDS`) and recognition-error maps of
  the two `useVoiceCommands` hooks: `src/hooks` (here `Root`) and
  `frontend/src/hooks` (here `Frontend`). Each table is kept in definition
  order, one constant per commented section of the object literal.
*/
module VoiceTables {
  import opened Wrappers
  import opened Text
  import opened Dispatch

  /** Which of the two hooks. */
  datatype Variant = Root | Frontend

  const RootNavigation: seq<Entry> := [
    ("ir para home", Navigate("/")),
    ("página inicial", Navigate("/")),
    ("ir para início", Navigate("/")),
    ("início", Navigate("/")),
    ("voltar", Perform(HistoryBack))
  ]

  const RootResume: seq<Entry> := [
    ("melhorar currículo", Navigate("/curriculo/analise")),
    ("analisar currículo", Navigate("/curriculo/analise")),
    ("currículo", Navigate("/curriculo/analise")),
    ("cv", Navigate("/curriculo/analise")),
    ("curriculum", Navigate("/curriculo/analise"))
  ]

  const RootInterview: seq<Entry> := [
    ("treinar entrevista", Navigate("/entrevista/simulacao")),
    ("simular entrevista", Navigate("/entrevista/simulacao")),
    ("entrevista", Navigate("/entrevista/simulacao")),
    ("praticar", Navigate("/entrevista/simulacao")),
    ("treinar", Navigate("/entrevista/simulacao"))
  ]

  const RootJobs: seq<Entry> := [
    ("achar emprego", Navigate("/vagas/busca")),
    ("buscar emprego", Navigate("/vagas/busca")),
    ("procurar emprego", Navigate("/vagas/busca")),
    ("emprego", Navigate("/vagas/busca")),
    ("trabalho", Navigate("/vagas/busca")),
    ("vagas", Navigate("/vagas/busca")),
    ("trampo", Navigate("/vagas/busca"))
  ]

  const RootCourses: seq<Entry> := [
    ("aprender", Navigate("/cursos")),
    ("estudar", Navigate("/cursos")),
    ("curso", Navigate("/cursos")),
    ("cursos", Navigate("/cursos")),
    ("capacitar", Navigate("/cursos"))
  ]

  const RootMentoring: seq<Entry> := [
    ("conversar", Navigate("/mentoria/chat")),
    ("dúvida", Navigate("/mentoria/chat")),
    ("pergunta", Navigate("/mentoria/chat")),
    ("mentoria", Navigate("/mentoria/chat"))
  ]

  const RootProfile: seq<Entry> := [
    ("meu perfil", Navigate("/perfil")),
    ("perfil", Navigate("/perfil")),
    ("configurar", Navigate("/configuracoes")),
    ("ajustar", Navigate("/configuracoes"))
  ]

  const RootHelp: seq<Entry> := [
    ("ajuda", Navigate("/ajuda")),
    ("tutorial", Navigate("/tutorial")),
    ("suporte", Navigate("/suporte")),
    ("contato", Navigate("/contato"))
  ]

  const RootInterface: seq<Entry> := [
    ("rolar para cima", Perform(ScrollToTop)),
    ("subir", Perform(ScrollToTop)),
    ("rolar para baixo", Perform(ScrollToBottom)),
    ("descer", Perform(ScrollToBottom)),
    ("atualizar", Perform(Reload)),
    ("recarregar", Perform(Reload))
  ]

  const RootAccessibility: seq<Entry> := [
    ("aumentar fonte", Perform(FontLarger)),
    ("diminuir fonte", Perform(FontNormal)),
    ("modo escuro", Perform(DarkModeOn)),
    ("modo claro", Perform(DarkModeOff))
  ]

  const RootSearch: seq<Entry> := [
    ("pesquisar", Navigate("/busca")),
    ("buscar", Navigate("/busca")),
    ("procurar", Navigate("/busca"))
  ]

  const RootCommands: seq<Entry> :=
    RootNavigation + (RootResume + (RootInterview + (RootJobs + (RootCourses + (RootMentoring
    + (RootProfile + (RootHelp + (RootInterface + (RootAccessibility + RootSearch)))))))))

  const FrontendNavigation: seq<Entry> := [
    ("ir para home", Navigate("/")),
    ("página inicial", Navigate("/")),
    ("ir para início", Navigate("/")),
    ("voltar", Perform(HistoryBack)),
    ("avançar", Perform(HistoryForward))
  ]

  const FrontendResume: seq<Entry> := [
    ("analisar currículo", Navigate("/curriculo/analise")),
    ("análise currículo", Navigate("/curriculo/analise")),
    ("revisar currículo", Navigate("/curriculo/analise")),
    ("avaliar currículo", Navigate("/curriculo/analise")),
    ("currículo", Navigate("/curriculo"))
  ]

  const FrontendInterview: seq<Entry> := [
    ("simular entrevista", Navigate("/entrevista/simulacao")),
    ("simulação entrevista", Navigate("/entrevista/simulacao")),
    ("treinar entrevista", Navigate("/entrevista/simulacao")),
    ("praticar entrevista", Navigate("/entrevista/simulacao")),
    ("entrevista", Navigate("/entrevista"))
  ]

  const FrontendJobs: seq<Entry> := [
    ("buscar vagas", Navigate("/vagas/busca")),
    ("procurar vagas", Navigate("/vagas/busca")),
    ("encontrar vagas", Navigate("/vagas/busca")),
    ("vagas", Navigate("/vagas")),
    ("empregos", Navigate("/vagas"))
  ]

  const FrontendCourses: seq<Entry> := [
    ("cursos", Navigate("/cursos")),
    ("treinamentos", Navigate("/cursos")),
    ("capacitação", Navigate("/cursos")),
    ("estudar", Navigate("/cursos"))
  ]

  const FrontendMentoring: seq<Entry> := [
    ("mentoria", Navigate("/mentoria")),
    ("conversar com mentor", Navigate("/mentoria/chat")),
    ("chat mentor", Navigate("/mentoria/chat")),
    ("falar com mentor", Navigate("/mentoria/chat"))
  ]

  const FrontendProfile: seq<Entry> := [
    ("meu perfil", Navigate("/perfil")),
    ("perfil", Navigate("/perfil")),
    ("configurações", Navigate("/configuracoes")),
    ("ajustes", Navigate("/configuracoes")),
    ("sair", Navigate("/auth/logout")),
    ("logout", Navigate("/auth/logout"))
  ]

  const FrontendHelp: seq<Entry> := [
    ("ajuda", Navigate("/ajuda")),
    ("tutorial", Navigate("/tutorial")),
    ("suporte", Navigate("/suporte")),
    ("contato", Navigate("/contato"))
  ]

  const FrontendInterface: seq<Entry> := [
    ("rolar para cima", Perform(ScrollToTop)),
    ("subir", Perform(ScrollToTop)),
    ("rolar para baixo", Perform(ScrollToBottom)),
    ("descer", Perform(ScrollToBottom)),
    ("atualizar", Perform(Reload)),
    ("recarregar", Perform(Reload))
  ]

  const FrontendAccessibility: seq<Entry> := [
    ("aumentar fonte", Perform(FontLarger)),
    ("diminuir fonte", Perform(FontNormal)),
    ("modo escuro", Perform(DarkModeOn)),
    ("modo claro", Perform(DarkModeOff))
  ]

  const FrontendSearch: seq<Entry> := [
    ("pesquisar", Navigate("/busca")),
    ("buscar", Navigate("/busca")),
    ("procurar", Navigate("/busca"))
  ]

  const FrontendCommands: seq<Entry> :=
    FrontendNavigation + (FrontendResume + (FrontendInterview + (FrontendJobs + (FrontendCourses
    + (FrontendMentoring + (FrontendProfile + (FrontendHelp + (FrontendInterface
    + (FrontendAccessibility + FrontendSearch)))))))))

  function Commands(v: Variant): seq<Entry>
  {
    match v
    case Root => RootCommands
    case Frontend => FrontendCommands
  }

  /** No entry of the table has phrase `c`. */
  predicate KeyAbsent(table: seq<Entry>, c: string)
  {
    forall j :: 0 <= j < |table| ==> table[j].0 != c
  }

  lemma RootKeyAbsent(c: string)
    requires KeyAbsent(RootNavigation, c) && KeyAbsent(RootResume, c) && KeyAbsent(RootInterview, c)
    requires KeyAbsent(RootJobs, c) && KeyAbsent(RootCourses, c) && KeyAbsent(RootMentoring, c)
    requires KeyAbsent(RootProfile, c) && KeyAbsent(RootHelp, c) && KeyAbsent(RootInterface, c)
    requires KeyAbsent(RootAccessibility, c) && KeyAbsent(RootSearch, c)
    ensures KeyAbsent(RootCommands, c)
  {
  }

  lemma FrontendKeyAbsent(c: string)
    requires KeyAbsent(FrontendNavigation, c) && KeyAbsent(FrontendResume, c)
    requires KeyAbsent(FrontendInterview, c) && KeyAbsent(FrontendJobs, c)
    requires KeyAbsent(FrontendCourses, c) && KeyAbsent(FrontendMentoring, c)
    requires KeyAbsent(FrontendProfile, c) && KeyAbsent(FrontendHelp, c)
    requires KeyAbsent(FrontendInterface, c) && KeyAbsent(FrontendAccessibility, c)
    requires KeyAbsent(FrontendSearch, c)
    ensures KeyAbsent(FrontendCommands, c)
  {
  }

  /** No entry of the table has a phrase related to `c`. */
  predicate NoneRelated(table: seq<Entry>, c: string)
  {
    forall j :: 0 <= j < |table| ==> !Related(table[j].0, c)
  }

  /**
    Why a phrase is unrelated to a command: each has a character the other
    lacks, or the phrase is shorter and holds an adjacent pair the command
    never has.
  */
  datatype Witness = Chars(x: char, y: char) | Pair(k: nat)

  predicate Witnesses(key: string, c: string, w: Witness)
  {
    match w
    case Chars(x, y) => x in key && x !in c && y in c && y !in key
    case Pair(k) => |key| < |c| && k + 1 < |key| && NoAdjacent(c, key[k], key[k + 1])
  }

  lemma WitnessedUnrelated(key: string, c: string, w: Witness)
    requires Witnesses(key, c, w)
    ensures !Related(key, c)
  {
    match w
    case Chars(x, y) =>
      ContainsNeedsChar(c, key, x);
      ContainsNeedsChar(key, c, y);
    case Pair(k) =>
      ContainsNeedsPair(c, key, k);
  }

  lemma UnrelatedChunk(chunk: seq<Entry>, c: string, ws: seq<Witness>)
    requires |ws| == |chunk|
    requires forall j :: 0 <= j < |chunk| ==> Witnesses(chunk[j].0, c, ws[j])
    ensures NoneRelated(chunk, c)
  {
    forall j | 0 <= j < |chunk|
      ensures !Related(chunk[j].0, c)
    {
      WitnessedUnrelated(chunk[j].0, c, ws[j]);
    }
  }

  lemma NoneRelatedAppend(a: seq<Entry>, b: seq<Entry>, c: string)
    requires NoneRelated(a, c) && NoneRelated(b, c)
    ensures NoneRelated(a + b, c)
  {
    forall j | 0 <= j < |a + b|
      ensures !Related((a + b)[j].0, c)
    {
      if j >= |a| {
        assert (a + b)[j] == b[j - |a|];
      }
    }
  }

  // The phrases the "not understood" toast and speech suggest are exact phrases.

  lemma RootVoltarFires()
    ensures IsLower("voltar") && IsTrimmed("voltar")
    ensures ExactIndex(RootCommands, "voltar") == Some(4)
  {
    assert RootCommands[..4] == RootNavigation[..4];
    assert KeyAbsent(RootNavigation[..4], "voltar");
    assert RootCommands[4] == RootNavigation[4];
    ExactIndexIs(RootCommands, "voltar", 4);
  }

  lemma RootMelhorarCurriculoFires()
    ensures IsLower("melhorar currículo") && IsTrimmed("melhorar currículo")
    ensures ExactIndex(RootCommands, "melhorar currículo") == Some(5)
  {
    var c := "melhorar currículo";
    assert RootCommands[..5] == RootNavigation;
    assert KeyAbsent(RootNavigation, c);
    assert RootCommands[5] == RootResume[0];
    ExactIndexIs(RootCommands, c, 5);
  }

  lemma RootTreinarEntrevistaFires()
    ensures IsLower("treinar entrevista") && IsTrimmed("treinar entrevista")
    ensures ExactIndex(RootCommands, "treinar entrevista") == Some(10)
  {
    var c := "treinar entrevista";
    assert RootCommands[..10] == RootNavigation + RootResume;
    assert KeyAbsent(RootNavigation + RootResume, c);
    assert RootCommands[10] == RootInterview[0];
    ExactIndexIs(RootCommands, c, 10);
  }

  lemma RootAcharEmpregoFires()
    ensures IsLower("achar emprego") && IsTrimmed("achar emprego")
    ensures ExactIndex(RootCommands, "achar emprego") == Some(15)
  {
    var c := "achar emprego";
    assert RootCommands[..15] == RootNavigation + RootResume + RootInterview;
    assert KeyAbsent(RootNavigation + RootResume + RootInterview, c);
    assert RootCommands[15] == RootJobs[0];
    ExactIndexIs(RootCommands, c, 15);
  }

  lemma FrontendAnalisarCurriculoFires()
    ensures IsLower("analisar currículo") && IsTrimmed("analisar currículo")
    ensures ExactIndex(FrontendCommands, "analisar currículo") == Some(5)
  {
    var c := "analisar currículo";
    assert FrontendCommands[..5] == FrontendNavigation;
    assert KeyAbsent(FrontendNavigation, c);
    assert FrontendCommands[5] == FrontendResume[0];
    ExactIndexIs(FrontendCommands, c, 5);
  }

  lemma FrontendSimularEntrevistaFires()
    ensures IsLower("simular entrevista") && IsTrimmed("simular entrevista")
    ensures ExactIndex(FrontendCommands, "simular entrevista") == Some(10)
  {
    var c := "simular entrevista";
    assert FrontendCommands[..10] == FrontendNavigation + FrontendResume;
    assert KeyAbsent(FrontendNavigation + FrontendResume, c);
    assert FrontendCommands[10] == FrontendInterview[0];
    ExactIndexIs(FrontendCommands, c, 10);
  }

  lemma FrontendBuscarVagasFires()
    ensures IsLower("buscar vagas") && IsTrimmed("buscar vagas")
    ensures ExactIndex(FrontendCommands, "buscar vagas") == Some(15)
  {
    var c := "buscar vagas";
    assert FrontendCommands[..15] == FrontendNavigation + FrontendResume + FrontendInterview;
    assert KeyAbsent(FrontendNavigation + FrontendResume + FrontendInterview, c);
    assert FrontendCommands[15] == FrontendJobs[0];
    ExactIndexIs(FrontendCommands, c, 15);
  }

  /** The phrases named by the hint after an unrecognised command. */
  function HintPhrases(v: Variant): seq<string>
  {
    match v
    case Root => ["melhorar currículo", "treinar entrevista", "achar emprego", "voltar"]
    case Frontend => ["analisar currículo", "simular entrevista", "buscar vagas"]
  }

  lemma RootHintPhrasesAreExact()
    ensures forall p :: p in HintPhrases(Root) ==> IsLower(p) && IsTrimmed(p) && ExactIndex(RootCommands, p).Some?
  {
    forall p | p in HintPhrases(Root)
      ensures IsLower(p) && IsTrimmed(p) && ExactIndex(RootCommands, p).Some?
    {
      if p == "melhorar currículo" { RootMelhorarCurriculoFires(); }
      else if p == "treinar entrevista" { RootTreinarEntrevistaFires(); }
      else if p == "achar emprego" { RootAcharEmpregoFires(); }
      else { RootVoltarFires(); }
    }
  }

  lemma FrontendHintPhrasesAreExact()
    ensures forall p :: p in HintPhrases(Frontend) ==> IsLower(p) && IsTrimmed(p) && ExactIndex(FrontendCommands, p).Some?
  {
    forall p | p in HintPhrases(Frontend)
      ensures IsLower(p) && IsTrimmed(p) && ExactIndex(FrontendCommands, p).Some?
    {
      if p == "analisar currículo" { FrontendAnalisarCurriculoFires(); }
      else if p == "simular entrevista" { FrontendSimularEntrevistaFires(); }
      else { FrontendBuscarVagasFires(); }
    }
  }

  /** Saying a suggested phrase fires that phrase's own action. */
  lemma HintPhraseFires(v: Variant, p: string)
    requires p in HintPhrases(v)
    ensures ExactIndex(Commands(v), p).Some?
    ensures ProcessCommand(Commands(v), p) == Some(Commands(v)[ExactIndex(Commands(v), p).value].1)
  {
    if v == Root { RootHintPhrasesAreExact(); } else { FrontendHintPhrasesAreExact(); }
    NormaliseOfClean(p);
  }

  /** A blank transcript goes home in the first hook: 'ir para home' is first and no phrase is empty. */
  lemma RootBlankGoesHome(command: string)
    requires forall k :: 0 <= k < |command| ==> IsWhite(command[k])
    ensures ProcessCommand(RootCommands, command) == Some(Navigate("/"))
  {
    RootKeyAbsent("");
    BlankFiresFirstPhrase(RootCommands, command);
  }

  lemma FrontendBlankGoesHome(command: string)
    requires forall k :: 0 <= k < |command| ==> IsWhite(command[k])
    ensures ProcessCommand(FrontendCommands, command) == Some(Navigate("/"))
  {
    FrontendKeyAbsent("");
    BlankFiresFirstPhrase(FrontendCommands, command);
  }

  lemma RootNavigationUnrelatedToExample()
    ensures NoneRelated(RootNavigation, "curso de entrevista")
  {
    UnrelatedChunk(RootNavigation, "curso de entrevista",
      [Chars('p', 'c'), Chars('p', 'u'), Chars('p', 'u'), Chars('í', 'u'), Chars('l', 'c')]);
  }

  lemma RootResumeUnrelatedToExample()
    ensures NoneRelated(RootResume, "curso de entrevista")
  {
    UnrelatedChunk(RootResume, "curso de entrevista",
      [Chars('m', 's'), Chars('l', 'e'), Chars('í', 's'), Pair(0), Chars('l', 's')]);
  }

  lemma RootInterviewStartUnrelatedToExample()
    ensures NoneRelated(RootInterview[..2], "curso de entrevista")
  {
    UnrelatedChunk(RootInterview[..2], "curso de entrevista", [Pair(2), Chars('m', 'c')]);
  }

  /** No phrase before 'entrevista' relates to "curso de entrevista". */
  lemma RootNothingRelatedBefore12()
    ensures forall j :: 0 <= j < 12 ==> !Related(RootCommands[j].0, "curso de entrevista")
  {
    var c := "curso de entrevista";
    RootNavigationUnrelatedToExample();
    RootResumeUnrelatedToExample();
    RootInterviewStartUnrelatedToExample();
    NoneRelatedAppend(RootNavigation, RootResume, c);
    NoneRelatedAppend(RootNavigation + RootResume, RootInterview[..2], c);
    var before := RootNavigation + RootResume + RootInterview[..2];
    assert RootCommands[..12] == before;
    forall j | 0 <= j < 12
      ensures !Related(RootCommands[j].0, c)
    {
      assert RootCommands[j] == before[j];
    }
  }

  lemma RootExampleIsNoPhrase()
    ensures KeyAbsent(RootCommands, "curso de entrevista")
  {
    RootKeyAbsent("curso de entrevista");
  }

  lemma RootExampleRelatesToEntrevista()
    ensures RootCommands[12] == ("entrevista", Navigate("/entrevista/simulacao"))
    ensures Related(RootCommands[12].0, "curso de entrevista")
  {
    assert RootCommands[12] == RootInterview[2];
    OccursContains("curso de entrevista", "entrevista", 9);
  }

  /**
    "curso de entrevista" is no phrase; the scan reaches 'entrevista'
    (index 12) before 'curso' (index 24).
  */
  lemma RootScanTakesFirstRelated()
    ensures ExactIndex(RootCommands, "curso de entrevista").None?
    ensures RelatedIndex(RootCommands, "curso de entrevista") == Some(12)
  {
    var c := "curso de entrevista";
    RootExampleIsNoPhrase();
    RootNothingRelatedBefore12();
    RootExampleRelatesToEntrevista();
    RelatedIndexIs(RootCommands, c, 12);
  }

  lemma RootScanExample()
    ensures ProcessCommand(RootCommands, "curso de entrevista") == Some(Navigate("/entrevista/simulacao"))
  {
    NormaliseOfClean("curso de entrevista");
    RootScanTakesFirstRelated();
    RootExampleRelatesToEntrevista();
  }

  lemma FrontendCurriculoIsExact()
    ensures IsLower("currículo") && IsTrimmed("currículo")
    ensures ExactIndex(FrontendCommands, "currículo") == Some(9)
    ensures FrontendCommands[9].1 == Navigate("/curriculo")
  {
    var c := "currículo";
    assert FrontendCommands[..9] == FrontendNavigation + FrontendResume[..4];
    assert KeyAbsent(FrontendNavigation + FrontendResume[..4], c);
    assert FrontendCommands[9] == FrontendResume[4];
    ExactIndexIs(FrontendCommands, c, 9);
  }

  /** No navigation phrase relates to 'currículo'. */
  lemma FrontendNavigationUnrelatedToCurriculo()
    ensures NoneRelated(FrontendNavigation, "currículo")
  {
    UnrelatedChunk(FrontendNavigation, "currículo", [Chars('h', 'u'), Chars('p', 'u'), Chars('p', 'u'), Chars('v', 'u'), Chars('v', 'u')]);
  }

  lemma FrontendCurriculoScanStopsEarlier()
    ensures RelatedIndex(FrontendCommands, "currículo") == Some(5)
    ensures FrontendCommands[5].1 == Navigate("/curriculo/analise")
  {
    var c := "currículo";
    FrontendNavigationUnrelatedToCurriculo();
    assert FrontendCommands[..5] == FrontendNavigation;
    assert forall j :: 0 <= j < 5 ==> FrontendCommands[j] == FrontendNavigation[j];
    assert FrontendCommands[5] == FrontendResume[0];
    OccursContains("analisar currículo", c, 9);
    RelatedIndexIs(FrontendCommands, c, 5);
  }

  /** 'currículo' is exact at index 9 ('/curriculo'), though the scan would stop at 'analisar currículo' (index 5). */
  lemma FrontendCurriculoExactBeatsScan()
    ensures RelatedIndex(FrontendCommands, "currículo") == Some(5)
    ensures FrontendCommands[5].1 == Navigate("/curriculo/analise")
    ensures ProcessCommand(FrontendCommands, "currículo") == Some(Navigate("/curriculo"))
  {
    FrontendCurriculoIsExact();
    FrontendCurriculoScanStopsEarlier();
    CleanPhraseFires(FrontendCommands, "currículo");
  }

  lemma FrontendEntrevistaIsExact()
    ensures IsLower("entrevista") && IsTrimmed("entrevista")
    ensures ExactIndex(FrontendCommands, "entrevista") == Some(14)
    ensures FrontendCommands[14].1 == Navigate("/entrevista")
  {
    var c := "entrevista";
    assert FrontendCommands[..14] == FrontendNavigation + FrontendResume + FrontendInterview[..4];
    assert KeyAbsent(FrontendNavigation + FrontendResume + FrontendInterview[..4], c);
    assert FrontendCommands[14] == FrontendInterview[4];
    ExactIndexIs(FrontendCommands, c, 14);
  }

  lemma FrontendEntrevistaRelatedEarlier()
    ensures Related(FrontendCommands[10].0, "entrevista")
    ensures FrontendCommands[10].1 == Navigate("/entrevista/simulacao")
  {
    assert FrontendCommands[10] == FrontendInterview[0];
    OccursContains("simular entrevista", "entrevista", 8);
  }

  /** 'entrevista' is exact at index 14, though 'simular entrevista' (index 10) relates to it first. */
  lemma FrontendEntrevistaExactBeatsScan()
    ensures Related(FrontendCommands[10].0, "entrevista")
    ensures FrontendCommands[10].1 == Navigate("/entrevista/simulacao")
    ensures ProcessCommand(FrontendCommands, "entrevista") == Some(Navigate("/entrevista"))
  {
    FrontendEntrevistaIsExact();
    FrontendEntrevistaRelatedEarlier();
    CleanPhraseFires(FrontendCommands, "entrevista");
  }

  lemma FrontendVagasIsExact()
    ensures IsLower("vagas") && IsTrimmed("vagas")
    ensures ExactIndex(FrontendCommands, "vagas") == Some(18)
    ensures FrontendCommands[18].1 == Navigate("/vagas")
  {
    var c := "vagas";
    assert FrontendCommands[..18] == FrontendNavigation + FrontendResume + FrontendInterview + FrontendJobs[..3];
    assert KeyAbsent(FrontendNavigation + FrontendResume + FrontendInterview + FrontendJobs[..3], c);
    assert FrontendCommands[18] == FrontendJobs[3];
    ExactIndexIs(FrontendCommands, c, 18);
  }

  lemma FrontendVagasRelatedEarlier()
    ensures Related(FrontendCommands[15].0, "vagas")
    ensures FrontendCommands[15].1 == Navigate("/vagas/busca")
  {
    assert FrontendCommands[15] == FrontendJobs[0];
    OccursContains("buscar vagas", "vagas", 7);
  }

  /** 'vagas' is exact at index 18, though 'buscar vagas' (index 15) relates to it first. */
  lemma FrontendVagasExactBeatsScan()
    ensures Related(FrontendCommands[15].0, "vagas")
    ensures FrontendCommands[15].1 == Navigate("/vagas/busca")
    ensures ProcessCommand(FrontendCommands, "vagas") == Some(Navigate("/vagas"))
  {
    FrontendVagasIsExact();
    FrontendVagasRelatedEarlier();
    CleanPhraseFires(FrontendCommands, "vagas");
  }

  lemma FrontendNavigationUnrelatedToExample()
    ensures NoneRelated(FrontendNavigation, "quero buscar vagas")
  {
    UnrelatedChunk(FrontendNavigation, "quero buscar vagas",
      [Chars('i', 'q'), Chars('p', 'q'), Chars('p', 'q'), Chars('l', 'q'), Chars('ç', 'q')]);
  }

  lemma FrontendResumeUnrelatedToExample()
    ensures NoneRelated(FrontendResume, "quero buscar vagas")
  {
    UnrelatedChunk(FrontendResume, "quero buscar vagas",
      [Chars('l', 'q'), Chars('á', 'q'), Chars('i', 'q'), Chars('l', 'q'), Chars('í', 'q')]);
  }

  lemma FrontendInterviewUnrelatedToExample()
    ensures NoneRelated(FrontendInterview, "quero buscar vagas")
  {
    UnrelatedChunk(FrontendInterview, "quero buscar vagas",
      [Chars('i', 'q'), Chars('i', 'q'), Chars('i', 'q'), Chars('p', 'q'), Chars('n', 'q')]);
  }

  lemma FrontendNothingRelatedBefore15()
    ensures forall j :: 0 <= j < 15 ==> !Related(FrontendCommands[j].0, "quero buscar vagas")
  {
    var c := "quero buscar vagas";
    FrontendNavigationUnrelatedToExample();
    FrontendResumeUnrelatedToExample();
    FrontendInterviewUnrelatedToExample();
    NoneRelatedAppend(FrontendNavigation, FrontendResume, c);
    NoneRelatedAppend(FrontendNavigation + FrontendResume, FrontendInterview, c);
    var before := FrontendNavigation + FrontendResume + FrontendInterview;
    assert FrontendCommands[..15] == before;
    forall j | 0 <= j < 15
      ensures !Related(FrontendCommands[j].0, c)
    {
      assert FrontendCommands[j] == before[j];
    }
  }

  lemma FrontendExampleIsNoPhrase()
    ensures KeyAbsent(FrontendCommands, "quero buscar vagas")
  {
    FrontendKeyAbsent("quero buscar vagas");
  }

  lemma FrontendExampleRelatesToBuscarVagas()
    ensures FrontendCommands[15] == ("buscar vagas", Navigate("/vagas/busca"))
    ensures Related(FrontendCommands[15].0, "quero buscar vagas")
  {
    assert FrontendCommands[15] == FrontendJobs[0];
    OccursContains("quero buscar vagas", "buscar vagas", 6);
  }

  /**
    "quero buscar vagas" is no phrase; the scan reaches 'buscar vagas'
    (index 15) before 'vagas' (index 18) and 'buscar' (index 49).
  */
  lemma FrontendScanTakesFirstRelated()
    ensures ExactIndex(FrontendCommands, "quero buscar vagas").None?
    ensures RelatedIndex(FrontendCommands, "quero buscar vagas") == Some(15)
    ensures FrontendCommands[15] == ("buscar vagas", Navigate("/vagas/busca"))
  {
    var c := "quero buscar vagas";
    FrontendExampleIsNoPhrase();
    FrontendNothingRelatedBefore15();
    FrontendExampleRelatesToBuscarVagas();
    RelatedIndexIs(FrontendCommands, c, 15);
  }

  lemma FrontendScanExample()
    ensures ProcessCommand(FrontendCommands, "quero buscar vagas") == Some(Navigate("/vagas/busca"))
  {
    NormaliseOfClean("quero buscar vagas");
    FrontendScanTakesFirstRelated();
  }

  // Recognition-error messages (`errorMessages` inside `onerror`).

  /** Error code and the message shown for it, in definition order. */
  type ErrorTable = seq<(string, string)>

  const RootErrors: ErrorTable := [
    ("no-speech", "Não ouvi sua voz. Fale mais perto do microfone."),
    ("audio-capture", "Problema com o microfone. Verifique se está funcionando."),
    ("not-allowed", "Preciso que você permita usar o microfone. Clique em \"Permitir\"."),
    ("network", "Sem internet. Verifique sua conexão."),
    ("language-not-supported", "Seu celular não entende português."),
    ("service-not-allowed", "Comando de voz não funciona agora."),
    ("aborted", "Cancelado."),
    ("bad-grammar", "Não entendi. Fale mais devagar.")
  ]

  const FrontendErrors: ErrorTable := [
    ("no-speech", "Nenhuma fala detectada. Tente novamente."),
    ("audio-capture", "Problema com o microfone. Verifique as permissões."),
    ("not-allowed", "Permissão de microfone negada. Habilite nas configurações."),
    ("network", "Problema de rede. Verifique sua conexão."),
    ("language-not-supported", "Idioma não suportado."),
    ("service-not-allowed", "Serviço não permitido.")
  ]

  function Errors(v: Variant): ErrorTable
  {
    match v
    case Root => RootErrors
    case Frontend => FrontendErrors
  }

  /** The text the message template puts before an unknown code. */
  function ErrorFallbackPrefix(v: Variant): string
  {
    match v
    case Root => "Erro: "
    case Frontend => "Erro no reconhecimento de voz: "
  }

  /** `errorMessages[code]`: the message of the first entry for the code, if any. */
  function LookupMessage(errors: ErrorTable, code: string): (r: Option<string>)
    ensures r.Some? ==> exists i :: 0 <= i < |errors| && errors[i] == (code, r.value)
    ensures r.None? ==> forall i :: 0 <= i < |errors| ==> errors[i].0 != code
  {
    if errors == [] then None
    else if errors[0].0 == code then Some(errors[0].1)
    else LookupMessage(errors[1..], code)
  }

  /** `errorMessages[code] || <fallback>`: an empty message counts as missing. */
  function ErrorMessage(v: Variant, code: string): string
  {
    match LookupMessage(Errors(v), code)
    case Some(m) => if m != "" then m else ErrorFallbackPrefix(v) + code
    case None => ErrorFallbackPrefix(v) + code
  }

  /** A listed code shows its own message; any other code shows the fallback with the code appended. */
  lemma {:induction false} ErrorMessageSpec(v: Variant, code: string)
    ensures (exists i :: 0 <= i < |Errors(v)| && Errors(v)[i].0 == code)
            ==> exists i :: 0 <= i < |Errors(v)| && Errors(v)[i] == (code, ErrorMessage(v, code))
    ensures (forall i :: 0 <= i < |Errors(v)| ==> Errors(v)[i].0 != code)
            ==> ErrorMessage(v, code) == ErrorFallbackPrefix(v) + code
  {
    var e := Errors(v);
    assert forall i :: 0 <= i < |e| ==> e[i].1 != "";
  }

  /** 'aborted' has its own message in the first hook. */
  lemma RootAbortedMessage()
    ensures ErrorMessage(Root, "aborted") == "Cancelado."
  {
    assert RootErrors[..6] + [RootErrors[6]] + RootErrors[7..] == RootErrors;
    assert forall i :: 0 <= i < 6 ==> RootErrors[i].0 != "aborted";
    assert LookupMessage(RootErrors, "aborted") == Some("Cancelado.");
  }

  /** The second hook lists no 'aborted', so the template message is shown. */
  lemma FrontendAbortedFallsBack()
    ensures ErrorMessage(Frontend, "aborted") == "Erro no reconhecimento de voz: aborted"
  {
    ErrorMessageSpec(Frontend, "aborted");
  }
}
