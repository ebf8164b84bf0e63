/**
  The résumé-analysis page (`src/app/curriculo/analise/page.tsx`): the
  submission guard, the simulated analysis with its randomly drawn score,
  the message shown for a score, and the reset button.
*/
module ResumeAnalysis {
  import opened Wrappers
  import opened Text

  /** The analysis result (`analiseSimulada`). */
  datatype Analise = Analise(
    compatibilidade: int,
    pontosFortes: seq<string>,
    melhorias: seq<string>,
    proximosPassos: seq<string>)

  const AlertaCurriculoVazio := "Por favor, cole seu currículo na primeira caixa"

  const PontosFortes := [
    "Experiência relevante na área",
    "Boa formação acadêmica",
    "Habilidades técnicas importantes"]

  const Melhorias := [
    "Adicionar mais palavras-chave da vaga",
    "Destacar resultados quantificados",
    "Incluir certificações relevantes",
    "Melhorar descrição das experiências"]

  const ProximosPassos := [
    "Adicione números aos seus resultados (ex: \"aumentei vendas em 20%\")",
    "Use palavras da descrição da vaga no seu currículo",
    "Destaque suas habilidades técnicas mais importantes"]

  /**
    The score: `Math.floor(r * 30) + 70` when the job text is non-empty,
    `Math.floor(r * 20) + 60` otherwise, where `r` is `Math.random()`.
  */
  function Compatibilidade(vaga: string, r: real): (c: int)
    requires 0.0 <= r < 1.0
    ensures vaga != [] ==> 70 <= c <= 99
    ensures vaga == [] ==> 60 <= c <= 79
  {
    if vaga != [] then (r * 30.0).Floor + 70 else (r * 20.0).Floor + 60
  }

  /** Every score of the band can be drawn. */
  lemma CompatibilidadeReachable(vaga: string, c: int)
    requires if vaga != [] then 70 <= c <= 99 else 60 <= c <= 79
    ensures exists r :: 0.0 <= r < 1.0 && Compatibilidade(vaga, r) == c
  {
    var base, width := if vaga != [] then 70 else 60, if vaga != [] then 30 else 20;
    var r := (c - base) as real / width as real;
    assert r * width as real == (c - base) as real;
    assert Compatibilidade(vaga, r) == c;
  }

  /** `analiseSimulada`, for the job text captured at submission and the draw `r`. */
  function AnaliseSimulada(vaga: string, r: real): (a: Analise)
    requires 0.0 <= r < 1.0
    ensures |a.pontosFortes| == 3 && |a.melhorias| == 4 && |a.proximosPassos| == 3
    ensures a.compatibilidade == Compatibilidade(vaga, r)
  {
    Analise(Compatibilidade(vaga, r), PontosFortes, Melhorias, ProximosPassos)
  }

  const MensagemExcelente := "Excelente! Seu currículo está muito bom!"
  const MensagemBom := "Bom! Algumas melhorias vão te ajudar muito."
  const MensagemMelhorar := "Há espaço para melhorar. Vamos te ajudar!"

  /** The line under the score. */
  function Mensagem(compatibilidade: int): string
  {
    if compatibilidade >= 80 then MensagemExcelente
    else if compatibilidade >= 60 then MensagemBom
    else MensagemMelhorar
  }

  lemma MensagemBands(c: int)
    ensures Mensagem(c) == MensagemExcelente <==> c >= 80
    ensures Mensagem(c) == MensagemBom <==> 60 <= c < 80
    ensures Mensagem(c) == MensagemMelhorar <==> c < 60
  {
    assert MensagemExcelente[0] == 'E' && MensagemBom[0] == 'B' && MensagemMelhorar[0] == 'H';
  }

  /** No draw ever produces the third message: every score is at least 60. */
  lemma MensagemMelhorarUnreachable(vaga: string, r: real)
    requires 0.0 <= r < 1.0
    ensures Mensagem(AnaliseSimulada(vaga, r).compatibilidade) != MensagemMelhorar
  {
    MensagemBands(Compatibilidade(vaga, r));
  }

  /** Without a job description the result is never excellent... */
  lemma SemVagaNuncaExcelente(r: real)
    requires 0.0 <= r < 1.0
    ensures Mensagem(Compatibilidade([], r)) == MensagemBom
  {
  }

  /** ...and with one it is excellent exactly when the draw reaches one third. */
  lemma ComVagaExcelente(vaga: string, r: real)
    requires vaga != [] && 0.0 <= r < 1.0
    ensures Mensagem(Compatibilidade(vaga, r)) == MensagemExcelente <==> r * 3.0 >= 1.0
  {
    MensagemBands(Compatibilidade(vaga, r));
  }

  /**
    The page's state. `pendente` is the job text captured by the completion
    that a submission schedules; the button is disabled while `analisando`,
    so at most one is pending.
  */
  class Pagina {
    var curriculo: string
    var vaga: string
    var analisando: bool
    var resultado: Option<Analise>
    var pendente: Option<string>
    var alertas: seq<string>

    ghost predicate Valid()
      reads this
    {
      (analisando <==> pendente.Some?)
      && (resultado.Some? ==> |resultado.value.pontosFortes| == 3 && |resultado.value.melhorias| == 4
                              && |resultado.value.proximosPassos| == 3 && 60 <= resultado.value.compatibilidade <= 99)
    }

    constructor()
      ensures Valid()
      ensures curriculo == [] && vaga == [] && !analisando && resultado == None && alertas == []
    {
      curriculo, vaga, analisando, resultado, pendente, alertas := [], [], false, None, None, [];
    }

    method EditarCurriculo(texto: string)
      modifies this
      requires Valid()
      ensures Valid()
      ensures curriculo == texto
      ensures vaga == old(vaga) && analisando == old(analisando) && resultado == old(resultado)
      ensures pendente == old(pendente) && alertas == old(alertas)
    {
      curriculo := texto;
    }

    method EditarVaga(texto: string)
      modifies this
      requires Valid()
      ensures Valid()
      ensures vaga == texto
      ensures curriculo == old(curriculo) && analisando == old(analisando) && resultado == old(resultado)
      ensures pendente == old(pendente) && alertas == old(alertas)
    {
      vaga := texto;
    }

    /**
      `analisarCurriculo`: a blank résumé only raises the alert; otherwise the
      analysis starts and its completion is scheduled with the current job text.
    */
    method AnalisarCurriculo()
      modifies this
      requires Valid() && !analisando
      ensures Valid()
      ensures curriculo == old(curriculo) && vaga == old(vaga) && resultado == old(resultado)
      ensures Trim(curriculo) == [] ==>
        !analisando && pendente == old(pendente) && alertas == old(alertas) + [AlertaCurriculoVazio]
      ensures Trim(curriculo) != [] ==>
        analisando && pendente == Some(vaga) && alertas == old(alertas)
    {
      if Trim(curriculo) == [] {
        alertas := alertas + [AlertaCurriculoVazio];
        return;
      }
      analisando := true;
      pendente := Some(vaga);
    }

    /** The scheduled completion, with `r` the value `Math.random()` returned. */
    method ConcluirAnalise(r: real)
      modifies this
      requires Valid() && analisando && 0.0 <= r < 1.0
      ensures Valid()
      ensures !analisando && pendente == None
      ensures resultado == Some(AnaliseSimulada(old(pendente).value, r))
      ensures curriculo == old(curriculo) && vaga == old(vaga) && alertas == old(alertas)
    {
      resultado := Some(AnaliseSimulada(pendente.value, r));
      analisando := false;
      pendente := None;
    }

    /** "Analisar outro currículo": clear the result and both texts. */
    method NovaAnalise()
      modifies this
      requires Valid()
      ensures Valid()
      ensures resultado == None && curriculo == [] && vaga == []
      ensures analisando == old(analisando) && pendente == old(pendente) && alertas == old(alertas)
    {
      resultado := None;
      curriculo := [];
      vaga := [];
    }
  }

  /** A whole submission: the score lands in the band its job text selects. */
  method Analisar(p: Pagina, r: real) returns (a: Option<Analise>)
    modifies p
    requires p.Valid() && !p.analisando && 0.0 <= r < 1.0
    ensures p.Valid() && !p.analisando
    ensures a.None? <==> Trim(old(p.curriculo)) == []
    ensures a.Some? ==> a == p.resultado
    ensures a.Some? && old(p.vaga) != [] ==> 70 <= a.value.compatibilidade <= 99
    ensures a.Some? && old(p.vaga) == [] ==> 60 <= a.value.compatibilidade <= 79
  {
    p.AnalisarCurriculo();
    if !p.analisando {
      return None;
    }
    p.ConcluirAnalise(r);
    a := p.resultado;
  }
}
