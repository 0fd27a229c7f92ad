/**
 * Constants of the old engine's configuration file: the screen grid and
 * the table of generation frequencies.
 */
module Configuracao {

  const Largura := 1000
  const Altura := 600
  const Fps := 60

  const Colunas := 12
  /** Python's `LARGURA // COLUNAS`; both operands are positive, so floor and Dafny's division agree. */
  const LarguraColuna := Largura / Colunas
  const Margem := 20

  const Linhas := 8
  const AlturaLinha := Altura / Linhas

  /** One row of the frequency table: a label, an interval in frames and a description. */
  datatype Frequencia = Frequencia(nome: string, valor: int, desc: string)

  const Frequencias: seq<Frequencia> := [
    Frequencia("Muito Lento", 180, "3 segundos"),
    Frequencia("Lento", 120, "2 segundos"),
    Frequencia("Normal", 60, "1 segundo"),
    Frequencia("Rápido", 30, "0.5 segundos"),
    Frequencia("Muito Rápido", 15, "0.25 segundos")
  ]

  /** Grid cells (column, row) of the old engine's generator and computer, and their size in cells. */
  const PosGerador := (2, 4)
  const PosComputador := (8, 4)
  const TamanhoComputador := (2, 2)
  const TamanhoGerador := (2, 2)

  lemma GridConstants()
    ensures LarguraColuna == 83 && AlturaLinha == 75 && Margem == 20
  {
  }

  /** The table has five rows whose intervals strictly decrease: a higher index means more frequent generation. */
  lemma FrequenciasDecrease()
    ensures |Frequencias| == 5
    ensures forall i, j :: 0 <= i < j < |Frequencias| ==> Frequencias[j].valor < Frequencias[i].valor
    ensures forall i :: 0 <= i < |Frequencias| ==> Frequencias[i].valor > 0
  {
  }
}
