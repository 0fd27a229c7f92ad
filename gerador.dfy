/**
 * The old engine's process generator: a fixed box on the grid whose centre
 * is where new processes appear.  The triangle it draws is presentation and
 * is not modelled.
 */
module Geradores {
  import opened Configuracao
  import opened GridHelper

  class GeradorProcessos {
    /** The box `para_pixels` gives for the configured cell and size. */
    const caixa: Caixa := ParaPixels(PosGerador.0, PosGerador.1, TamanhoGerador.0, TamanhoGerador.1)
    const x := caixa.x
    const y := caixa.y
    const largura := caixa.largura
    const altura := caixa.altura

    constructor ()
    {
    }

    /** `get_centro` agrees with the grid's `centro_pixels` of the same box: pixel (249, 375). */
    function GetCentro(): (c: (int, int))
      ensures c == CentroPixels(PosGerador.0, PosGerador.1, TamanhoGerador.0, TamanhoGerador.1)
      ensures c == (249, 375)
    {
      (x + largura / 2, y + altura / 2)
    }
  }

  /** Cell (2, 4), two cells wide and high: the box at (186, 320) of 126 x 110 pixels. */
  lemma CaixaDoGerador()
    ensures ParaPixels(PosGerador.0, PosGerador.1, TamanhoGerador.0, TamanhoGerador.1) == Caixa(186, 320, 126, 110)
  {
  }
}
