/**
 * The old engine's computer: a fixed box on the grid and a flag saying the
 * processor is idle.
 */
module Computadores {
  import opened Configuracao
  import opened GridHelper
  import opened Processos

  class Computador {
    /** The box `para_pixels` gives for the configured cell and size. */
    const caixa: Caixa := ParaPixels(PosComputador.0, PosComputador.1, TamanhoComputador.0, TamanhoComputador.1)
    const x := caixa.x
    const y := caixa.y
    const largura := caixa.largura
    const altura := caixa.altura
    var processorOcioso: bool
    var processoAtual: Processo?

    /** A new computer is idle and holds no process. */
    constructor ()
      ensures processorOcioso && processoAtual == null
    {
      processorOcioso := true;
      processoAtual := null;
    }

    /** `get_centro` agrees with the grid's `centro_pixels` of the same box: pixel (747, 375). */
    function GetCentro(): (c: (int, int))
      ensures c == CentroPixels(PosComputador.0, PosComputador.1, TamanhoComputador.0, TamanhoComputador.1)
      ensures c == (747, 375)
    {
      (x + largura / 2, y + altura / 2)
    }
  }

  /** Cell (8, 4), two cells wide and high: the box at (684, 320) of 126 x 110 pixels. */
  lemma CaixaDoComputador()
    ensures ParaPixels(PosComputador.0, PosComputador.1, TamanhoComputador.0, TamanhoComputador.1) == Caixa(684, 320, 126, 110)
  {
  }
}
