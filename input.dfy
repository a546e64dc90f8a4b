/** The slice of winit's window events the msaa-line example looks at. */
module Input {
  import opened Gpu

  datatype ElementState = Pressed | Released

  datatype VirtualKeyCode = Left | Right | Up | Down | OtherKey(code: nat)

  datatype KeyboardInput = KeyboardInput(state: ElementState, virtualKeycode: Option<VirtualKeyCode>)

  /** Every window event other than keyboard input is `OtherEvent`. */
  datatype WindowEvent =
    | KeyboardInputEvent(input: KeyboardInput)
    | OtherEvent(kind: nat)

  predicate IsPress(e: WindowEvent, key: VirtualKeyCode)
  {
    e.KeyboardInputEvent? && e.input.state == Pressed && e.input.virtualKeycode == Some(key)
  }
}
