/**
  The mock-interview page (`src/app/entrevista/simulacao/page.tsx`): ten
  fixed questions, each with a tip, answered one after the other while a
  one-second timer runs, and a score computed from the answers' lengths.
*/
module Interview {
  import opened Wrappers
  import opened Text

  /** `perguntasComuns`. */
  const Perguntas: seq<string> := [
    "Me fale sobre você.",
    "Por que você quer trabalhar aqui?",
    "Qual é o seu maior defeito?",
    "Onde você se vê em 5 anos?",
    "Por que você está deixando seu emprego atual?",
    "Conte sobre um desafio que você enfrentou no trabalho.",
    "Qual é o seu maior orgulho profissional?",
    "Como você lida com pressão?",
    "Você tem alguma pergunta para nós?",
    "Qual é o seu salário esperado?"
  ]

  /** `dicasResposta`, as its question/tip entries in declaration order. */
  const Dicas: seq<(string, string)> := [
    ("Me fale sobre você.", "Foque em sua experiência profissional e como ela se relaciona com a vaga. Mantenha em 2-3 minutos."),
    ("Por que você quer trabalhar aqui?", "Mostre que pesquisou sobre a empresa. Fale sobre os valores e missão que te atraem."),
    ("Qual é o seu maior defeito?", "Escolha algo real, mas mostre como você está trabalhando para melhorar."),
    ("Onde você se vê em 5 anos?", "Demonstre ambição, mas seja realista. Conecte com a carreira na empresa."),
    ("Por que você está deixando seu emprego atual?", "Seja positivo. Foque em crescimento e novas oportunidades, não críticas."),
    ("Conte sobre um desafio que você enfrentou no trabalho.", "Use o método STAR: Situação, Tarefa, Ação, Resultado."),
    ("Qual é o seu maior orgulho profissional?", "Escolha algo relevante para a vaga. Quantifique os resultados se possível."),
    ("Como você lida com pressão?", "Dê exemplos concretos de como você mantém a calma e produtividade."),
    ("Você tem alguma pergunta para nós?", "SEMPRE tenha perguntas! Sobre a cultura, crescimento, desafios da posição."),
    ("Qual é o seu salário esperado?", "Pesquise o mercado antes. Seja flexível mas conheça seu valor.")
  ]

  /** The questions the tip table has entries for, in order. */
  function DicaKeys(entries: seq<(string, string)>): (keys: seq<string>)
    ensures |keys| == |entries|
    ensures forall i :: 0 <= i < |entries| ==> keys[i] == entries[i].0
  {
    seq(|entries|, i requires 0 <= i < |entries| => entries[i].0)
  }

  /** `dicasResposta[pergunta]`: the first entry for the question, if any. */
  function DicaPara(entries: seq<(string, string)>, pergunta: string): (r: Option<string>)
    ensures r.Some? <==> pergunta in DicaKeys(entries)
    ensures r.Some? ==> (pergunta, r.value) in entries
  {
    if entries == [] then None
    else if entries[0].0 == pergunta then Some(entries[0].1)
    else DicaPara(entries[1..], pergunta)
  }

  /** The tip table has one entry per question, in the questions' order. */
  lemma DicasCoverPerguntas()
    ensures DicaKeys(Dicas) == Perguntas
  {
  }

  /** So the tip shown for every question exists. */
  lemma EveryQuestionHasTip(i: nat)
    requires i < |Perguntas|
    ensures DicaPara(Dicas, Perguntas[i]).Some?
  {
    DicasCoverPerguntas();
  }

  const FeedbackCurta := "⚠️ Sua resposta está muito curta. Tente elaborar mais."
  const FeedbackLonga := "⚠️ Sua resposta está muito longa. Seja mais conciso."
  const FeedbackBoa := "✅ Boa resposta! Continue assim."
  const AlertaSemResposta := "Por favor, digite sua resposta antes de continuar."

  /** The feedback for an accepted answer, judged on its untrimmed length. */
  function Feedback(resposta: string): string
  {
    if |resposta| < 20 then FeedbackCurta
    else if |resposta| > 300 then FeedbackLonga
    else FeedbackBoa
  }

  /** The three feedback messages partition the lengths: < 20, > 300, and 20..300. */
  lemma FeedbackBands(resposta: string)
    ensures Feedback(resposta) == FeedbackCurta <==> |resposta| < 20
    ensures Feedback(resposta) == FeedbackLonga <==> |resposta| > 300
    ensures Feedback(resposta) == FeedbackBoa <==> 20 <= |resposta| <= 300
  {
    assert |FeedbackBoa| < |FeedbackLonga| < |FeedbackCurta|;
  }

  /** The points one answer earns: 20 for 50..250 characters, 10 for other lengths of at least 20. */
  function PontosResposta(resposta: string): nat
  {
    if 50 <= |resposta| <= 250 then 20
    else if |resposta| >= 20 then 10
    else 0
  }

  /** The points of all answers, before the cap at 100. */
  function SomaPontos(respostas: seq<string>): nat
  {
    if respostas == [] then 0
    else SomaPontos(respostas[..|respostas| - 1]) + PontosResposta(respostas[|respostas| - 1])
  }

  /** `calcularPontuacao`'s result: the sum capped at 100. */
  function Pontuacao(respostas: seq<string>): (p: nat)
    ensures p <= 100
  {
    if SomaPontos(respostas) < 100 then SomaPontos(respostas) else 100
  }

  /** Each answer earns at most 20 points, in steps of 10. */
  lemma {:induction false} SomaPontosBounds(respostas: seq<string>)
    ensures SomaPontos(respostas) <= 20 * |respostas|
    ensures SomaPontos(respostas) % 10 == 0
  {
    if respostas != [] {
      SomaPontosBounds(respostas[..|respostas| - 1]);
    }
  }

  /** Answers of 50 to 250 characters earn full points; five of them already reach 100. */
  lemma {:induction false} IdealAnswersScoreFull(respostas: seq<string>)
    requires forall i :: 0 <= i < |respostas| ==> 50 <= |respostas[i]| <= 250
    ensures SomaPontos(respostas) == 20 * |respostas|
    ensures |respostas| >= 5 ==> Pontuacao(respostas) == 100
  {
    if respostas != [] {
      IdealAnswersScoreFull(respostas[..|respostas| - 1]);
    }
  }

  /** Answers shorter than 20 characters earn nothing. */
  lemma {:induction false} ShortAnswersScoreZero(respostas: seq<string>)
    requires forall i :: 0 <= i < |respostas| ==> |respostas[i]| < 20
    ensures Pontuacao(respostas) == 0
  {
    if respostas != [] {
      ShortAnswersScoreZero(respostas[..|respostas| - 1]);
    }
  }

  /** `formatarTempo`: "m:ss", minutes unpadded and seconds padded to two digits. */
  function FormatarTempo(segundos: nat): string
  {
    DecimalString(segundos / 60) + ":" + PadStart(DecimalString(segundos % 60), 2, '0')
  }

  /** Two-digit padding does not change a number below 100. */
  lemma PaddedValue(n: nat)
    requires n < 100
    ensures var p := PadStart(DecimalString(n), 2, '0');
            |p| == 2 && AllDigits(p) && DecimalValue(p) == n
  {
    DecimalRoundTrip(n);
    var d := DecimalString(n);
    var p := PadStart(d, 2, '0');
    if n < 10 {
      assert p == "0" + d;
      assert p[..1] == "0";
    } else {
      assert n / 10 < 10;
      assert |d| == 2;
    }
  }

  /**
    Reading "m:ss" back: the text before the last three characters is the
    minutes, then a ':', then two digits for the seconds below 60, and
    minutes · 60 + seconds gives the input back.
  */
  lemma FormatarTempoRoundTrip(segundos: nat)
    ensures var t := FormatarTempo(segundos);
            var k := |t| - 3;
            k >= 1 && t[k] == ':' && AllDigits(t[..k]) && AllDigits(t[k + 1..])
            && DecimalValue(t[k + 1..]) < 60
            && DecimalValue(t[..k]) * 60 + DecimalValue(t[k + 1..]) == segundos
  {
    var m := DecimalString(segundos / 60);
    var p := PadStart(DecimalString(segundos % 60), 2, '0');
    PaddedValue(segundos % 60);
    DecimalRoundTrip(segundos / 60);
    var t := FormatarTempo(segundos);
    assert t == m + ":" + p;
    assert t[..|m|] == m;
    assert t[|m| + 1..] == p;
  }

  /** The page's state: one field per `useState` of the component. */
  class Simulacao {
    var perguntaAtual: int
    var respostaUsuario: string
    var simulacaoIniciada: bool
    var temporizador: nat
    var cronometroAtivo: bool
    var respostas: seq<string>
    var feedbackAtual: string
    var mostrarDica: bool
    var simulacaoCompleta: bool
    /** Messages passed to `alert`. */
    var alertas: seq<string>

    /**
      Before the start nothing is recorded; while questions are being
      answered one answer is stored per question already passed; once
      complete, all ten are stored and the index rests on the last question.
    */
    ghost predicate Valid()
      reads this
    {
      0 <= perguntaAtual < |Perguntas|
      && (!simulacaoIniciada ==> perguntaAtual == 0 && respostas == [] && !simulacaoCompleta && !cronometroAtivo)
      && (simulacaoIniciada && !simulacaoCompleta ==> |respostas| == perguntaAtual && cronometroAtivo)
      && (simulacaoCompleta ==> |respostas| == |Perguntas| && perguntaAtual == |Perguntas| - 1 && !cronometroAtivo)
    }

    constructor()
      ensures Valid() && !simulacaoIniciada && respostaUsuario == [] && temporizador == 0
      ensures feedbackAtual == [] && !mostrarDica && alertas == []
    {
      perguntaAtual := 0;
      respostaUsuario := "";
      simulacaoIniciada := false;
      temporizador := 0;
      cronometroAtivo := false;
      respostas := [];
      feedbackAtual := "";
      mostrarDica := false;
      simulacaoCompleta := false;
      alertas := [];
    }

    /** The tip shown for the current question. */
    function DicaAtual(): (r: Option<string>)
      reads this
      requires 0 <= perguntaAtual < |Perguntas|
      ensures r.Some?
    {
      EveryQuestionHasTip(perguntaAtual);
      DicaPara(Dicas, Perguntas[perguntaAtual])
    }

    /** `iniciarSimulacao`: answer text, feedback and tip visibility are left as they were. */
    method IniciarSimulacao()
      modifies this
      ensures Valid()
      ensures simulacaoIniciada && perguntaAtual == 0 && respostas == [] && temporizador == 0
      ensures cronometroAtivo && !simulacaoCompleta
      ensures respostaUsuario == old(respostaUsuario) && feedbackAtual == old(feedbackAtual)
      ensures mostrarDica == old(mostrarDica) && alertas == old(alertas)
    {
      simulacaoIniciada := true;
      perguntaAtual := 0;
      respostas := [];
      temporizador := 0;
      cronometroAtivo := true;
      simulacaoCompleta := false;
    }

    /** Typing in the answer box. */
    method Digitar(texto: string)
      modifies this
      requires Valid()
      ensures Valid() && respostaUsuario == texto
      ensures perguntaAtual == old(perguntaAtual) && respostas == old(respostas)
      ensures simulacaoIniciada == old(simulacaoIniciada) && simulacaoCompleta == old(simulacaoCompleta)
      ensures temporizador == old(temporizador) && cronometroAtivo == old(cronometroAtivo)
      ensures feedbackAtual == old(feedbackAtual) && mostrarDica == old(mostrarDica) && alertas == old(alertas)
    {
      respostaUsuario := texto;
    }

    /** The tip button flips whether the tip is shown. */
    method AlternarDica()
      modifies this
      requires Valid()
      ensures Valid() && mostrarDica == !old(mostrarDica)
      ensures perguntaAtual == old(perguntaAtual) && respostas == old(respostas)
      ensures simulacaoIniciada == old(simulacaoIniciada) && simulacaoCompleta == old(simulacaoCompleta)
      ensures temporizador == old(temporizador) && cronometroAtivo == old(cronometroAtivo)
      ensures respostaUsuario == old(respostaUsuario) && feedbackAtual == old(feedbackAtual)
      ensures alertas == old(alertas)
    {
      mostrarDica := !mostrarDica;
    }

    /** One firing of the one-second interval, which runs only while the stopwatch is on. */
    method Tick()
      modifies this
      requires Valid()
      ensures Valid()
      ensures temporizador == if old(cronometroAtivo) then old(temporizador) + 1 else old(temporizador)
      ensures perguntaAtual == old(perguntaAtual) && respostas == old(respostas)
      ensures simulacaoIniciada == old(simulacaoIniciada) && simulacaoCompleta == old(simulacaoCompleta)
      ensures cronometroAtivo == old(cronometroAtivo) && respostaUsuario == old(respostaUsuario)
      ensures feedbackAtual == old(feedbackAtual) && mostrarDica == old(mostrarDica) && alertas == old(alertas)
    {
      if cronometroAtivo {
        temporizador := temporizador + 1;
      }
    }

    /** `finalizarSimulacao`. */
    method FinalizarSimulacao()
      modifies this
      ensures !cronometroAtivo && simulacaoCompleta
      ensures perguntaAtual == old(perguntaAtual) && respostas == old(respostas)
      ensures simulacaoIniciada == old(simulacaoIniciada) && temporizador == old(temporizador)
      ensures respostaUsuario == old(respostaUsuario) && feedbackAtual == old(feedbackAtual)
      ensures mostrarDica == old(mostrarDica) && alertas == old(alertas)
    {
      cronometroAtivo := false;
      simulacaoCompleta := true;
    }

    /**
      `proximaPergunta`. A blank answer only raises the alert. Otherwise the
      answer is stored as typed, feedback is given on its length, and the
      session moves to the next question or, on the last one, completes. The
      button exists only on the question screen, where the invariant is kept.
    */
    method ProximaPergunta()
      modifies this
      requires Valid()
      ensures old(simulacaoIniciada && !simulacaoCompleta) ==> Valid()
      ensures Trim(old(respostaUsuario)) == [] ==>
                alertas == old(alertas) + [AlertaSemResposta]
                && perguntaAtual == old(perguntaAtual) && respostas == old(respostas)
                && simulacaoIniciada == old(simulacaoIniciada) && simulacaoCompleta == old(simulacaoCompleta)
                && temporizador == old(temporizador) && cronometroAtivo == old(cronometroAtivo)
                && respostaUsuario == old(respostaUsuario) && feedbackAtual == old(feedbackAtual)
                && mostrarDica == old(mostrarDica)
      ensures Trim(old(respostaUsuario)) != [] ==>
                alertas == old(alertas) && simulacaoIniciada == old(simulacaoIniciada)
                && respostas == old(respostas) + [old(respostaUsuario)]
                && feedbackAtual == Feedback(old(respostaUsuario))
      ensures Trim(old(respostaUsuario)) != [] && old(perguntaAtual) < |Perguntas| - 1 ==>
                perguntaAtual == old(perguntaAtual) + 1 && respostaUsuario == [] && temporizador == 0
                && !mostrarDica && simulacaoCompleta == old(simulacaoCompleta)
                && cronometroAtivo == old(cronometroAtivo)
      ensures Trim(old(respostaUsuario)) != [] && old(perguntaAtual) == |Perguntas| - 1 ==>
                perguntaAtual == old(perguntaAtual) && respostaUsuario == old(respostaUsuario)
                && temporizador == old(temporizador) && mostrarDica == old(mostrarDica)
                && simulacaoCompleta && !cronometroAtivo
    {
      if Trim(respostaUsuario) != [] {
        respostas := respostas + [respostaUsuario];
        feedbackAtual := Feedback(respostaUsuario);
        if perguntaAtual < |Perguntas| - 1 {
          perguntaAtual := perguntaAtual + 1;
          respostaUsuario := "";
          temporizador := 0;
          mostrarDica := false;
        } else {
          FinalizarSimulacao();
        }
      } else {
        alertas := alertas + [AlertaSemResposta];
      }
    }

    /** `reiniciarSimulacao`: back to the start screen; tip visibility is left as it was. */
    method ReiniciarSimulacao()
      modifies this
      ensures Valid()
      ensures !simulacaoIniciada && perguntaAtual == 0 && respostaUsuario == [] && temporizador == 0
      ensures !cronometroAtivo && respostas == [] && feedbackAtual == [] && !simulacaoCompleta
      ensures mostrarDica == old(mostrarDica) && alertas == old(alertas)
    {
      simulacaoIniciada := false;
      perguntaAtual := 0;
      respostaUsuario := "";
      temporizador := 0;
      cronometroAtivo := false;
      respostas := [];
      feedbackAtual := "";
      simulacaoCompleta := false;
    }

    /** `calcularPontuacao`, accumulating over the stored answers. */
    method CalcularPontuacao() returns (pontos: int)
      ensures pontos == Pontuacao(respostas)
      ensures 0 <= pontos <= 100
    {
      pontos := 0;
      for i := 0 to |respostas|
        invariant pontos == SomaPontos(respostas[..i])
      {
        assert respostas[..i + 1][..i] == respostas[..i];
        var resposta := respostas[i];
        if |resposta| >= 50 && |resposta| <= 250 {
          pontos := pontos + 20;
        } else if |resposta| >= 20 {
          pontos := pontos + 10;
        }
      }
      assert respostas[..|respostas|] == respostas;
      if pontos > 100 {
        pontos := 100;
      }
    }
  }

  /**
    Answering all ten questions with non-blank text from the first question
    completes the session with ten stored answers.
  */
  method AnswerAll(s: Simulacao, answers: seq<string>)
    modifies s
    requires |answers| == |Perguntas|
    requires forall i :: 0 <= i < |answers| ==> Trim(answers[i]) != []
    ensures s.Valid() && s.simulacaoCompleta && s.respostas == answers
  {
    s.IniciarSimulacao();
    for i := 0 to |answers|
      invariant s.Valid() && s.simulacaoIniciada
      invariant i < |answers| ==> !s.simulacaoCompleta && s.perguntaAtual == i
      invariant i == |answers| ==> s.simulacaoCompleta
      invariant s.respostas == answers[..i]
    {
      s.Digitar(answers[i]);
      s.ProximaPergunta();
    }
    assert answers[..|answers|] == answers;
  }
}
