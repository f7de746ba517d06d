/** Shared value types: nullable references, exceptions, timestamps and the
    mutable list object that Java's ArrayList stands for. */
module Base {

  /** A Java reference or boxed value that may be null. */
  datatype Option<+T> = None | Some(value: T)

  /** The exceptions the modelled code throws (or would throw). */
  datatype Excepcion =
    | RuntimeException(mensaje: string)
    | NullPointerException

  /** A call that either returns a value or throws. */
  datatype Result<+T> = Ok(value: T) | Err(error: Excepcion)

  /** A `void` call that either returns normally or throws. */
  datatype Outcome = Pass | Fail(error: Excepcion)

  /** `LocalDateTime.now()` is read from a clock the model does not see: a
      timestamp is an opaque instant handed in by the caller. */
  datatype FechaHora = FechaHora(instante: int)

  /** A growable list object (`java.util.ArrayList`); two holders of the same
      `Lista` see each other's additions. */
  class Lista<T> {
    var elementos: seq<T>

    constructor ()
      ensures elementos == []
    {
      elementos := [];
    }

    /** The copy constructor `new ArrayList<>(c)`: a new list holding the
        given elements in order. */
    constructor De(s: seq<T>)
      ensures elementos == s
    {
      elementos := s;
    }

    /** `List.add`: appends at the end. */
    method Agregar(x: T)
      modifies this
      ensures elementos == old(elementos) + [x]
    {
      elementos := elementos + [x];
    }
  }
}
