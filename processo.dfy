/**
 * The old engine's process: an id, a position, an active flag and a flag
 * saying it stands in the drawn waiting line.  Its arrival time, read from
 * the wall clock, is the constructor argument `agora`.  Movement towards a
 * target (`mover_para`) works in floating point and is not modelled: the
 * position is the one the process is created at.
 */
module Processos {

  class Processo {
    const id: int
    var x: int
    var y: int
    const raio := 15
    var ativo: bool
    var emFila: bool
    var tempoChegada: int

    /** A new process is active, not yet in the waiting line, and records its arrival time. */
    constructor (id: int, x: int, y: int, agora: int)
      ensures this.id == id && this.x == x && this.y == y
      ensures ativo && !emFila && tempoChegada == agora
    {
      this.id := id;
      this.x := x;
      this.y := y;
      ativo := true;
      emFila := false;
      tempoChegada := agora;
    }
  }
}
