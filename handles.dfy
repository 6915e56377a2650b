/** Opaque graphics handles and the nullable-pointer wrapper used throughout the model.
    A Direct3D 11 interface pointer is either null or refers to some object; the model
    keeps only the object's identity. */
module Handles {

  /** A possibly-null pointer: None is nullptr. */
  datatype Option<+T> = None | Some(value: T)

  /** The identity of a Direct3D object (texture, view, shader, state, buffer). */
  datatype Handle = Handle(id: nat)
}
