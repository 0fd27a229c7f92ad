/**
 * Grid-to-pixel arithmetic of the old engine: a grid cell (column, row) and a
 * size in cells become a pixel box inset by the margin on every side.
 * Python's `//` floors; Dafny's `/` is Euclidean, and the two agree for the
 * positive divisor 2 used here.
 */
module GridHelper {
  import opened Configuracao

  /** A pixel box: top-left corner, width and height. */
  datatype Caixa = Caixa(x: int, y: int, largura: int, altura: int)

  /** `para_pixels`: cell counts default to one. */
  function ParaPixels(coluna: int, linha: int, larguraCelulas: int := 1, alturaCelulas: int := 1): (c: Caixa)
  {
    Caixa(coluna * LarguraColuna + Margem,
          linha * AlturaLinha + Margem,
          larguraCelulas * LarguraColuna - Margem * 2,
          alturaCelulas * AlturaLinha - Margem * 2)
  }

  /**
   * `centro_pixels`: the centre of the `ParaPixels` box.  For a box at least
   * one cell wide and high the centre lies inside the box.
   */
  function CentroPixels(coluna: int, linha: int, larguraCelulas: int := 1, alturaCelulas: int := 1): (p: (int, int))
    ensures var c := ParaPixels(coluna, linha, larguraCelulas, alturaCelulas);
            larguraCelulas >= 1 ==> c.x <= p.0 <= c.x + c.largura
    ensures var c := ParaPixels(coluna, linha, larguraCelulas, alturaCelulas);
            alturaCelulas >= 1 ==> c.y <= p.1 <= c.y + c.altura
  {
    var c := ParaPixels(coluna, linha, larguraCelulas, alturaCelulas);
    (c.x + c.largura / 2, c.y + c.altura / 2)
  }

  /** With the configured 83 x 75 grid and margin 20, a one-cell box is 43 x 35 pixels. */
  lemma OneCellBox(coluna: int, linha: int)
    ensures ParaPixels(coluna, linha).largura == 43
    ensures ParaPixels(coluna, linha).altura == 35
    ensures CentroPixels(coluna, linha) == (coluna * 83 + 41, linha * 75 + 37)
  {
  }

  /** The box's corner moves by exactly one column width per column and one row height per row, whatever the size. */
  lemma GridStride(coluna: int, linha: int, lc: int, ac: int)
    ensures ParaPixels(coluna + 1, linha, lc, ac).x == ParaPixels(coluna, linha, lc, ac).x + LarguraColuna
    ensures ParaPixels(coluna, linha + 1, lc, ac).y == ParaPixels(coluna, linha, lc, ac).y + AlturaLinha
    ensures ParaPixels(coluna + 1, linha, lc, ac).y == ParaPixels(coluna, linha, lc, ac).y
    ensures ParaPixels(coluna, linha + 1, lc, ac).x == ParaPixels(coluna, linha, lc, ac).x
  {
  }

  /** `x` is strictly increasing in the column and `y` strictly increasing in the row. */
  lemma StrictlyIncreasing(c1: int, c2: int, l1: int, l2: int)
    ensures c1 < c2 ==> ParaPixels(c1, l1).x < ParaPixels(c2, l2).x
    ensures l1 < l2 ==> ParaPixels(c1, l1).y < ParaPixels(c2, l2).y
  {
  }

  /** Boxes of horizontally adjacent cells do not overlap: the double margin leaves a gap of 40 pixels. */
  lemma AdjacentCellsLeaveGap(coluna: int, linha: int)
    ensures var a := ParaPixels(coluna, linha);
            var b := ParaPixels(coluna + 1, linha);
            a.x + a.largura + 2 * Margem == b.x
  {
  }
}
