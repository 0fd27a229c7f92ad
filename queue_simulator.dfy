/**
 * The old engine's simulator, the loop the program's entry point drives:
 * a frame counter fires process generation at the interval of the chosen
 * frequency, new processes join a FIFO waiting line, an idle processor
 * takes the head of the line, and processes that reach the computer are
 * retired and later pruned.
 *
 * Movement works in floating point and is abstracted: the caller of
 * `Atualizar` names, as `chegados`, the processes whose step towards the
 * computer reaches it this frame.  The wall clock is the argument `agora`.
 */
module QueueSimulators {
  import opened Configuracao
  import opened GridHelper
  import opened Lists
  import opened Processos
  import opened Computadores
  import opened Geradores

  /** Number of drawn places in the waiting line. */
  const LugaresFila := 5

  // ---------------------------------------------------------------------
  // Frequency control

  /** `aumentar_frequencia` on the index: one row towards faster generation, stopping at the last row. */
  function Aumentada(i: int): (r: int)
    ensures i <= r <= i + 1
    ensures 0 <= i < |Frequencias| ==> 0 <= r < |Frequencias|
  {
    if i < |Frequencias| - 1 then i + 1 else i
  }

  /** `diminuir_frequencia` on the index: one row towards slower generation, stopping at row 0. */
  function Diminuida(i: int): (r: int)
    ensures i - 1 <= r <= i
    ensures 0 <= i < |Frequencias| ==> 0 <= r < |Frequencias|
  {
    if i > 0 then i - 1 else i
  }

  /** Both steps keep the index inside the table, and never move it by more than one row. */
  lemma PassosNoIntervalo(i: int)
    requires 0 <= i < |Frequencias|
    ensures 0 <= Aumentada(i) < |Frequencias| && 0 <= Diminuida(i) < |Frequencias|
    ensures Aumentada(i) - i <= 1 && i - Diminuida(i) <= 1
    ensures Aumentada(i) == i <==> i == |Frequencias| - 1
    ensures Diminuida(i) == i <==> i == 0
  {
  }

  /** Away from the ends of the table, one step up and one step down undo each other. */
  lemma PassosSeDesfazem(i: int)
    ensures 0 <= i < |Frequencias| - 1 ==> Diminuida(Aumentada(i)) == i
    ensures 0 < i < |Frequencias| ==> Aumentada(Diminuida(i)) == i
  {
  }

  /** Raising the frequency never lengthens the generation interval; lowering it never shortens it. */
  lemma IntervaloMonotono(i: int)
    requires 0 <= i < |Frequencias|
    ensures Frequencias[Aumentada(i)].valor <= Frequencias[i].valor
    ensures Frequencias[i].valor <= Frequencias[Diminuida(i)].valor
  {
    FrequenciasDecrease();
  }

  // ---------------------------------------------------------------------
  // The generation counter

  /** One frame of the generation counter: the new counter, and whether a process is generated. */
  function Contar(t: int, intervalo: int): (r: (int, bool))
    ensures r.1 ==> r.0 == 0
    ensures !r.1 ==> r.0 == t + 1
    ensures 0 <= t < intervalo ==> 0 <= r.0 < intervalo
  {
    if t + 1 >= intervalo then (0, true) else (t + 1, false)
  }

  /** A counter that starts below the interval stays below it. */
  lemma ContadorAbaixoDoIntervalo(t: int, intervalo: int)
    requires 0 <= t < intervalo
    ensures 0 <= Contar(t, intervalo).0 < intervalo
  {
  }

  /** The number of processes generated in `n` frames from counter `t`. */
  function Geracoes(n: nat, t: int, intervalo: int): nat
  {
    if n == 0 then 0
    else
      var next := Contar(t, intervalo);
      (if next.1 then 1 else 0) + Geracoes(n - 1, next.0, intervalo)
  }

  lemma ProdutoSinal(d: int, k: int)
    requires d > 0
    ensures k >= 1 ==> d * k >= d
    ensures k <= -1 ==> d * k <= -d
  {
    if k >= 1 {
      assert d * k == d + d * (k - 1);
    } else if k <= -1 {
      assert d * k == -d + d * (k + 1);
    }
  }

  lemma DivisaoUnica(a: int, d: int, q: int, r: int)
    requires d > 0 && a == d * q + r && 0 <= r < d
    ensures a / d == q
  {
    var q', r' := a / d, a % d;
    assert d * (q - q') == r' - r;
    ProdutoSinal(d, q - q');
  }

  lemma DivisaoMaisUm(x: nat, d: int)
    requires d > 0
    ensures (x + d) / d == x / d + 1
  {
    assert x + d == d * (x / d + 1) + x % d;
    DivisaoUnica(x + d, d, x / d + 1, x % d);
  }

  /**
   * With a fixed interval, a counter at `t` generates one process every
   * `intervalo` frames: `(n + t) / intervalo` in `n` frames.
   */
  lemma {:induction false} GeracoesPeriodicas(n: nat, t: int, intervalo: int)
    requires 0 <= t < intervalo
    ensures Geracoes(n, t, intervalo) == (n + t) / intervalo
  {
    if n > 0 {
      if t + 1 >= intervalo {
        GeracoesPeriodicas(n - 1, 0, intervalo);
        DivisaoMaisUm(n - 1, intervalo);
      } else {
        GeracoesPeriodicas(n - 1, t + 1, intervalo);
      }
    }
  }

  // ---------------------------------------------------------------------
  // The lists of processes

  /** Whether `p`, outside the line, is among the processes that reach the computer this frame. */
  predicate Chega(p: Processo, chegados: set<Processo>)
    reads p`emFila
  {
    !p.emFila && p in chegados
  }

  /** `Chega` for every process of a list. */
  ghost function Chegadas(s: seq<Processo>, chegados: set<Processo>): (r: seq<bool>)
    reads s`emFila
    decreases |s|
    ensures |r| == |s|
    ensures forall k | 0 <= k < |s| :: r[k] == Chega(s[k], chegados)
  {
    if s == [] then [] else Chegadas(s[..|s| - 1], chegados) + [Chega(s[|s| - 1], chegados)]
  }

  /** The active flags of a list of processes. */
  function Ativos(s: seq<Processo>): (r: seq<bool>)
    reads s`ativo
    ensures |r| == |s|
    ensures forall k | 0 <= k < |s| :: r[k] == s[k].ativo
  {
    if s == [] then [] else Ativos(s[..|s| - 1]) + [s[|s| - 1].ativo]
  }

  /** The first `n` processes of the waiting line are marked as queued. */
  ghost predicate Marcados(fila: seq<Processo>, n: int)
    reads fila`emFila
  {
    forall k | 0 <= k < |fila| && k < n :: fila[k].emFila
  }

  /** The processes among the first `i` of `s` whose flag in `vivo` is set, in order. */
  function Filtrados(s: seq<Processo>, vivo: seq<bool>, i: int): (r: seq<Processo>)
    requires |vivo| == |s| && 0 <= i <= |s|
    ensures |r| <= i
  {
    if i == 0 then [] else Filtrados(s, vivo, i - 1) + (if vivo[i - 1] then [s[i - 1]] else [])
  }

  /**
   * Filtering keeps exactly the flagged processes of the prefix: every
   * flagged one is kept, nothing outside the prefix appears, and in a list
   * without repeats no unflagged process survives and none is kept twice.
   */
  lemma {:induction false} FiltradosMembros(s: seq<Processo>, vivo: seq<bool>, i: int)
    requires |vivo| == |s| && 0 <= i <= |s|
    ensures forall k | 0 <= k < i && vivo[k] :: s[k] in Filtrados(s, vivo, i)
    ensures forall q | q in Filtrados(s, vivo, i) :: q in s[..i]
    ensures Distinct(s) ==> Distinct(Filtrados(s, vivo, i))
    ensures Distinct(s) ==> forall k | 0 <= k < i && !vivo[k] :: s[k] !in Filtrados(s, vivo, i)
  {
    if i > 0 {
      FiltradosMembros(s, vivo, i - 1);
      var f := Filtrados(s, vivo, i - 1);
      assert forall q | q in s[..i - 1] :: q in s[..i];
      if Distinct(s) {
        DistinctAt(s, i - 1);
        assert s[i - 1] !in f;
        if vivo[i - 1] {
          DistinctJoin(f, [s[i - 1]]);
        }
        forall k | 0 <= k < i && !vivo[k]
          ensures s[k] !in Filtrados(s, vivo, i)
        {
          if k < i - 1 {
            assert s[k] != s[i - 1];
          }
        }
      }
    }
  }

  /** Filtering a prefix does not look past it. */
  lemma {:induction false} FiltradosExtensao(s: seq<Processo>, t: seq<Processo>, v: seq<bool>, w: seq<bool>, i: int)
    requires |v| == |s| && |w| == |t| && 0 <= i <= |s|
    ensures Filtrados(s + t, v + w, i) == Filtrados(s, v, i)
  {
    if i > 0 {
      FiltradosExtensao(s, t, v, w, i - 1);
      assert (s + t)[i - 1] == s[i - 1] && (v + w)[i - 1] == v[i - 1];
    }
  }

  /** Processes appended with a set flag are all kept, after the kept ones of the old list. */
  lemma FiltradosAnexados(s: seq<Processo>, v: seq<bool>, t: seq<Processo>)
    requires |v| == |s| && |t| <= 1
    ensures Filtrados(s + t, v + Unos(t), |s + t|) == Filtrados(s, v, |s|) + t
  {
    FiltradosExtensao(s, t, v, Unos(t), |s|);
    if t != [] {
      assert (s + t)[|s|] == t[0];
      assert [t[0]] == t;
    }
  }

  /** A set flag for each process of a list of at most one, the flags of a newly generated process. */
  function Unos(t: seq<Processo>): (r: seq<bool>)
    requires |t| <= 1
    ensures |r| == |t| && forall k | 0 <= k < |r| :: r[k]
  {
    if t == [] then [] else [true]
  }

  /**
   * The list as the pruning loop leaves it after visiting the first i
   * processes of the copy s: a process found inactive is removed from the
   * live list with list.remove, an active one stays.
   */
  function Poda(s: seq<Processo>, vivo: seq<bool>, i: int): (r: seq<Processo>)
    requires |vivo| == |s| && 0 <= i <= |s|
    ensures |s| - i <= |r| <= |s|
    decreases i
  {
    if i == 0 then s
    else if vivo[i - 1] then Poda(s, vivo, i - 1)
    else RemoveFirst(Poda(s, vivo, i - 1), s[i - 1])
  }

  /** In a list without repeats, removing while iterating a copy is filtering. */
  lemma {:induction false} PodaFiltra(s: seq<Processo>, vivo: seq<bool>, i: int)
    requires |vivo| == |s| && 0 <= i <= |s| && Distinct(s)
    ensures Poda(s, vivo, i) == Filtrados(s, vivo, i) + s[i..]
    decreases i
  {
    if i > 0 {
      var antes := Poda(s, vivo, i - 1);
      var f := Filtrados(s, vivo, i - 1);
      PodaFiltra(s, vivo, i - 1);
      PodaPasso(s, vivo, i - 1);
      assert antes == f + [s[i - 1]] + s[i..];
      if !vivo[i - 1] {
        RemoveFirstAfter(f, s[i - 1], s[i..]);
        assert Poda(s, vivo, i) == RemoveFirst(antes, s[i - 1]);
      }
    }
  }

  /** One step of the pruning loop over a list without repeats. */
  lemma PodaPasso(s: seq<Processo>, vivo: seq<bool>, i: int)
    requires |vivo| == |s| && 0 <= i < |s| && Distinct(s)
    ensures Filtrados(s, vivo, i) + s[i..] == Filtrados(s, vivo, i) + [s[i]] + s[i + 1..]
    ensures s[i] !in Filtrados(s, vivo, i)
    ensures vivo[i] ==> Filtrados(s, vivo, i + 1) + s[i + 1..] == Filtrados(s, vivo, i) + s[i..]
    ensures !vivo[i] ==> Filtrados(s, vivo, i + 1) == Filtrados(s, vivo, i)
  {
    assert s[i..] == [s[i]] + s[i + 1..];
    FiltradosMembros(s, vivo, i);
    DistinctAt(s, i);
    if vivo[i] {
      assert Filtrados(s, vivo, i) + [s[i]] + s[i + 1..] == Filtrados(s, vivo, i) + s[i..];
    }
  }

  /** Whether one of the first `i` processes is both active and reaching the computer. */
  function AlgumRetirado(vivo: seq<bool>, alvo: seq<bool>, i: int): bool
    requires |alvo| == |vivo| && 0 <= i <= |vivo|
  {
    i > 0 && (AlgumRetirado(vivo, alvo, i - 1) || (vivo[i - 1] && alvo[i - 1]))
  }

  /** `AlgumRetirado` holds exactly when some process of the prefix is retired. */
  lemma {:induction false} AlgumRetiradoExiste(vivo: seq<bool>, alvo: seq<bool>, i: int)
    requires |alvo| == |vivo| && 0 <= i <= |vivo|
    ensures AlgumRetirado(vivo, alvo, i) <==> exists k | 0 <= k < i :: vivo[k] && alvo[k]
  {
    if i > 0 {
      AlgumRetiradoExiste(vivo, alvo, i - 1);
    }
  }

  /** Appending a process not yet in a list without repeats keeps it without repeats. */
  lemma AnexarNovo(s: seq<Processo>, p: Processo)
    requires Distinct(s) && p !in s
    ensures Distinct(s + [p])
  {
    DistinctJoin(s, [p]);
  }

  // ---------------------------------------------------------------------
  // The simulator

  class QueueSimulator {
    const computador: Computador
    const gerador: GeradorProcessos
    /** Every process still on screen, oldest first. */
    var processos: seq<Processo>
    /** The waiting line, head first. */
    var filaEspera: seq<Processo>
    var proximoId: int
    /** Frames since the last generated process. */
    var tempoUltimoProcesso: int
    /** Row of the frequency table in use. */
    var frequenciaAtual: int
    var intervaloGeracao: int
    var geracaoAutomatica: bool
    /** Where the first places of the waiting line are drawn. */
    const filaPositions: seq<(int, int)>

    /**
     * The frequency index stays inside the table and the interval is its
     * row's value; neither list holds a process twice.
     */
    ghost predicate Valid()
      reads this
    {
      0 <= frequenciaAtual < |Frequencias| &&
      intervaloGeracao == Frequencias[frequenciaAtual].valor &&
      tempoUltimoProcesso >= 0 && proximoId >= 1 &&
      Distinct(processos) && Distinct(filaEspera) &&
      |filaPositions| == LugaresFila
    }

    constructor ()
      ensures Valid()
      ensures processos == [] && filaEspera == [] && proximoId == 1 && tempoUltimoProcesso == 0
      ensures frequenciaAtual == 2 && intervaloGeracao == 60 && geracaoAutomatica
      ensures computador.processorOcioso
      ensures forall i | 0 <= i < |filaPositions| :: filaPositions[i] == CentroPixels(4 + i, 4)
    {
      computador := new Computador();
      gerador := new GeradorProcessos();
      processos := [];
      filaEspera := [];
      proximoId := 1;
      tempoUltimoProcesso := 0;
      frequenciaAtual := 2;
      intervaloGeracao := Frequencias[2].valor;
      geracaoAutomatica := true;
      var posicoes := CalcularPosicoesFila();
      filaPositions := posicoes;
    }

    /** `_calcular_posicoes_fila`: the centres of five cells in row 4, from column 4 on. */
    static method CalcularPosicoesFila() returns (posicoes: seq<(int, int)>)
      ensures |posicoes| == LugaresFila
      ensures forall i | 0 <= i < |posicoes| :: posicoes[i] == CentroPixels(4 + i, 4)
    {
      posicoes := [];
      var colunaInicio := 4;
      var linha := 4;
      var i := 0;
      while i < LugaresFila
        invariant 0 <= i <= LugaresFila
        invariant |posicoes| == i
        invariant forall k | 0 <= k < i :: posicoes[k] == CentroPixels(4 + k, 4)
      {
        var centro := CentroPixels(colunaInicio + i, linha);
        posicoes := posicoes + [centro];
        i := i + 1;
      }
    }

    /** The row of the frequency table in use; its value is the generation interval. */
    function ObterFrequenciaAtual(): (f: Frequencia)
      reads this
      requires Valid()
      ensures f.valor == intervaloGeracao && f in Frequencias
    {
      Frequencias[frequenciaAtual]
    }

    method AumentarFrequencia()
      requires Valid()
      modifies this`frequenciaAtual, this`intervaloGeracao
      ensures Valid()
      ensures frequenciaAtual == Aumentada(old(frequenciaAtual))
      ensures intervaloGeracao <= old(intervaloGeracao)
    {
      if frequenciaAtual < |Frequencias| - 1 {
        frequenciaAtual := frequenciaAtual + 1;
        intervaloGeracao := Frequencias[frequenciaAtual].valor;
      }
      IntervaloMonotono(old(frequenciaAtual));
    }

    method DiminuirFrequencia()
      requires Valid()
      modifies this`frequenciaAtual, this`intervaloGeracao
      ensures Valid()
      ensures frequenciaAtual == Diminuida(old(frequenciaAtual))
      ensures intervaloGeracao >= old(intervaloGeracao)
    {
      if frequenciaAtual > 0 {
        frequenciaAtual := frequenciaAtual - 1;
        intervaloGeracao := Frequencias[frequenciaAtual].valor;
      }
      IntervaloMonotono(old(frequenciaAtual));
    }

    /** Flips automatic generation; two calls restore the flag. */
    method ToggleGeracaoAutomatica()
      requires Valid()
      modifies this`geracaoAutomatica
      ensures Valid()
      ensures geracaoAutomatica == !old(geracaoAutomatica)
    {
      geracaoAutomatica := !geracaoAutomatica;
    }

    /**
     * A new process with the next id appears at the generator's centre and
     * joins the end of both lists; the next id moves on by one.
     */
    method GerarProcesso(agora: int) returns (novo: Processo)
      requires Valid()
      modifies this`processos, this`filaEspera, this`proximoId
      ensures Valid()
      ensures fresh(novo)
      ensures novo.id == old(proximoId) && novo.x == gerador.GetCentro().0 && novo.y == gerador.GetCentro().1
      ensures novo.ativo && !novo.emFila && novo.tempoChegada == agora
      ensures processos == old(processos) + [novo] && filaEspera == old(filaEspera) + [novo]
      ensures proximoId == old(proximoId) + 1
    {
      var centro := gerador.GetCentro();
      novo := new Processo(proximoId, centro.0, centro.1, agora);
      AnexarNovo(processos, novo);
      AnexarNovo(filaEspera, novo);
      processos := processos + [novo];
      filaEspera := filaEspera + [novo];
      proximoId := proximoId + 1;
    }

    /**
     * One frame: generation by the counter, the waiting line marked, the
     * head handed to an idle processor, arrived processes retired and
     * inactive ones pruned, and the idle flag recomputed.  The ghost result
     * holds the process generated this frame, if any.
     */
    method Atualizar(agora: int, chegados: set<Processo>) returns (ghost novos: seq<Processo>)
      requires Valid()
      modifies this`processos, this`filaEspera, this`proximoId, this`tempoUltimoProcesso
      modifies computador`processorOcioso, processos`ativo, filaEspera`emFila
      ensures Valid()
      // generation
      ensures old(geracaoAutomatica) ==>
                (tempoUltimoProcesso, novos != []) == Contar(old(tempoUltimoProcesso), intervaloGeracao)
      ensures !old(geracaoAutomatica) ==> tempoUltimoProcesso == old(tempoUltimoProcesso) && novos == []
      ensures |novos| <= 1 && proximoId == old(proximoId) + |novos|
      ensures forall k | 0 <= k < |novos| :: fresh(novos[k]) && novos[k].id == old(proximoId) && novos[k].tempoChegada == agora
      // the waiting line
      ensures var f := old(filaEspera) + novos;
              var saiu := f != [] && old(computador.processorOcioso);
              filaEspera == (if saiu then f[1..] else f) && (saiu ==> !f[0].emFila)
      ensures var f := old(filaEspera) + novos;
              var saiu := f != [] && old(computador.processorOcioso);
              forall k | 0 <= k < |f| ::
                f[k].emFila == (!(saiu && k == 0) && (k < LugaresFila || (k < |old(filaEspera)| && old(filaEspera[k].emFila))))
      ensures Marcados(filaEspera, LugaresFila - 1)
      // pruning and retiring
      ensures processos == Filtrados(old(processos), old(Ativos(processos)), |old(processos)|) + novos
      ensures forall p | p in old(processos) :: p.ativo == (old(p.ativo) && !Chega(p, chegados))
      ensures forall p | p in novos :: p.ativo == !Chega(p, chegados)
      // the processor
      ensures computador.processorOcioso == (filaEspera == [])
    {
      ghost var s0 := processos;
      ghost var vivo := Ativos(processos);
      novos := AvancarFila(agora);
      ghost var vivo1 := vivo + Unos(novos);
      assert forall k | 0 <= k < |processos| :: vivo1[k] == processos[k].ativo;
      ProcessarMovimento(chegados, vivo1);
      FiltradosAnexados(s0, vivo, novos);
    }

    /**
     * The steps of `atualizar` after the waiting line: the pruning loop,
     * then the processor's idle flag recomputed from the line.
     */
    method ProcessarMovimento(chegados: set<Processo>, ghost vivo: seq<bool>)
      requires Distinct(processos)
      requires |vivo| == |processos| && forall k | 0 <= k < |processos| :: vivo[k] == processos[k].ativo
      modifies this`processos, processos`ativo, computador`processorOcioso
      ensures Distinct(processos)
      ensures processos == Filtrados(old(processos), vivo, |vivo|)
      ensures forall p | p in old(processos) :: p.ativo == (old(p.ativo) && !Chega(p, chegados))
      ensures computador.processorOcioso == (filaEspera == [])
    {
      ghost var alvo := Chegadas(processos, chegados);
      FiltradosMembros(processos, vivo, |processos|);
      var ocupou := PodarProcessos(chegados, vivo, alvo);
      if ocupou {
        computador.processorOcioso := false;
      }
      computador.processorOcioso := |filaEspera| == 0;
    }

    /** The steps of `atualizar` before the pruning loop: generation, then the waiting line. */
    method AvancarFila(agora: int) returns (ghost novos: seq<Processo>)
      requires Valid()
      modifies this`processos, this`filaEspera, this`proximoId, this`tempoUltimoProcesso, filaEspera`emFila
      ensures Valid()
      ensures old(geracaoAutomatica) ==>
                (tempoUltimoProcesso, novos != []) == Contar(old(tempoUltimoProcesso), intervaloGeracao)
      ensures !old(geracaoAutomatica) ==> tempoUltimoProcesso == old(tempoUltimoProcesso) && novos == []
      ensures |novos| <= 1 && proximoId == old(proximoId) + |novos|
      ensures forall k | 0 <= k < |novos| :: fresh(novos[k]) && novos[k].id == old(proximoId) && novos[k].tempoChegada == agora && novos[k].ativo
      ensures processos == old(processos) + novos
      ensures forall p | p in old(processos) :: p.ativo == old(p.ativo)
      ensures var f := old(filaEspera) + novos;
              var saiu := f != [] && computador.processorOcioso;
              filaEspera == (if saiu then f[1..] else f) && (saiu ==> !f[0].emFila)
      ensures var f := old(filaEspera) + novos;
              var saiu := f != [] && computador.processorOcioso;
              forall k | 0 <= k < |f| ::
                f[k].emFila == (!(saiu && k == 0) && (k < LugaresFila || (k < |old(filaEspera)| && old(filaEspera[k].emFila))))
      ensures Marcados(filaEspera, LugaresFila - 1)
    {
      novos := GerarPorTempo(agora);
      MarcarFila();
      AtenderFila();
    }

    /** The generation step of `atualizar`: the counter advances and, when it reaches the interval, a process is generated. */
    method GerarPorTempo(agora: int) returns (ghost novos: seq<Processo>)
      requires Valid()
      modifies this`processos, this`filaEspera, this`proximoId, this`tempoUltimoProcesso
      ensures Valid()
      ensures geracaoAutomatica ==>
                (tempoUltimoProcesso, novos != []) == Contar(old(tempoUltimoProcesso), intervaloGeracao)
      ensures !geracaoAutomatica ==> tempoUltimoProcesso == old(tempoUltimoProcesso) && novos == []
      ensures |novos| <= 1 && proximoId == old(proximoId) + |novos|
      ensures forall k | 0 <= k < |novos| :: fresh(novos[k]) && novos[k].id == old(proximoId) && novos[k].tempoChegada == agora && novos[k].ativo && !novos[k].emFila
      ensures processos == old(processos) + novos && filaEspera == old(filaEspera) + novos
    {
      novos := [];
      if geracaoAutomatica {
        tempoUltimoProcesso := tempoUltimoProcesso + 1;
        if tempoUltimoProcesso >= intervaloGeracao {
          var novo := GerarProcesso(agora);
          novos := [novo];
          tempoUltimoProcesso := 0;
        }
      }
    }

    /** The first loop of `atualizar`: the processes on the drawn places of the line are marked as queued. */
    method MarcarFila()
      requires Distinct(filaEspera) && |filaPositions| == LugaresFila
      modifies filaEspera`emFila
      ensures forall k | 0 <= k < |filaEspera| :: filaEspera[k].emFila == (k < LugaresFila || old(filaEspera[k].emFila))
    {
      var i := 0;
      while i < |filaEspera|
        invariant 0 <= i <= |filaEspera|
        invariant forall k | 0 <= k < |filaEspera| ::
                    filaEspera[k].emFila == (if k < i then k < LugaresFila || old(filaEspera[k].emFila) else old(filaEspera[k].emFila))
      {
        if i < |filaPositions| {
          filaEspera[i].emFila := true;
        }
        i := i + 1;
      }
    }

    /** An idle processor takes the head of the line, which is no longer queued; the rest keep their marks. */
    method AtenderFila()
      requires Distinct(filaEspera)
      requires Marcados(filaEspera, LugaresFila)
      modifies this`filaEspera, filaEspera`emFila
      ensures Distinct(filaEspera)
      ensures Marcados(filaEspera, LugaresFila - 1)
      ensures var saiu := old(filaEspera) != [] && computador.processorOcioso;
              filaEspera == (if saiu then old(filaEspera)[1..] else old(filaEspera)) &&
              (saiu ==> !old(filaEspera)[0].emFila)
      ensures forall q | q in filaEspera :: q.emFila == old(q.emFila)
    {
      if filaEspera != [] && computador.processorOcioso {
        DistinctTail(filaEspera);
        var processo := filaEspera[0];
        filaEspera := filaEspera[1..];
        processo.emFila := false;
      }
    }

    /**
     * The pruning loop of `atualizar`, over a copy of the list: an active
     * process outside the line that reaches the computer is retired; an
     * inactive one is removed.  A process retired here is removed only on
     * the next frame.  `vivo` names the active flags at the start and
     * `alvo` the processes that reach the computer.
     *
     * The list being pruned is kept in a local and stored back after the
     * loop, and the loop reports in `ocupou` whether it retired a process
     * (the source then marks the processor busy, which the caller does);
     * nothing reads either field while the loop runs.
     */
    method PodarProcessos(chegados: set<Processo>, ghost vivo: seq<bool>, ghost alvo: seq<bool>) returns (ocupou: bool)
      requires Distinct(processos)
      requires |vivo| == |processos| && forall k | 0 <= k < |processos| :: vivo[k] == processos[k].ativo
      requires |alvo| == |processos| && forall k | 0 <= k < |processos| :: alvo[k] == (!processos[k].emFila && processos[k] in chegados)
      modifies this`processos, processos`ativo
      ensures processos == Filtrados(old(processos), vivo, |vivo|)
      ensures forall k | 0 <= k < |vivo| :: old(processos)[k].ativo == (vivo[k] && !alvo[k])
      ensures ocupou == AlgumRetirado(vivo, alvo, |vivo|)
    {
      var snapshot := processos;
      PodaFiltra(snapshot, vivo, |snapshot|);
      var restantes := processos;
      ocupou := false;
      var i := 0;
      while i < |snapshot|
        invariant 0 <= i <= |snapshot|
        invariant restantes == Poda(snapshot, vivo, i)
        invariant forall k | 0 <= k < i :: snapshot[k].ativo == (vivo[k] && !alvo[k])
        invariant forall k | i <= k < |snapshot| :: snapshot[k].ativo == vivo[k]
        invariant ocupou == AlgumRetirado(vivo, alvo, i)
      {
        var processo := snapshot[i];
        if processo.ativo {
          if !processo.emFila && processo in chegados {
            ocupou := true;
            processo.ativo := false;
          }
        } else {
          restantes := RemoveFirst(restantes, processo);
        }
        i := i + 1;
      }
      processos := restantes;
    }
  }
}
