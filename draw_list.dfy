/** The slice of an ImGui draw list that blur::process touches: a growing list of
    user-callback commands, each with an optional user-data pointer. */
module DrawLists {
  import opened Handles

  /** The BlurParameters record a blur callback receives (imgui_blur.cpp:103-108). */
  datatype BlurParameters = BlurParameters(iterations: int, offset: real, noise: real)

  /** The three callbacks blur::process registers: post_process_callback, ImGui's
      ImDrawCallback_ResetRenderState marker, and the lambda that runs IM_DELETE on its data. */
  datatype CallbackFn = PostProcess | ResetRenderState | DeleteParameters

  /** A user-callback draw command: the callback and its UserCallbackData (None is nullptr). */
  datatype DrawCmd = Callback(fn: CallbackFn, data: Option<BlurParameters>)

  class DrawList {
    var commands: seq<DrawCmd>

    constructor ()
      ensures commands == []
    {
      commands := [];
    }

    /** ImDrawList::AddCallback. */
    method AddCallback(fn: CallbackFn, data: Option<BlurParameters>)
      modifies this
      ensures commands == old(commands) + [Callback(fn, data)]
    {
      commands := commands + [Callback(fn, data)];
    }
  }
}
