/** The part of a Direct3D 11 device context that the blur step reads and changes.
    Each method stands for one context call, except WriteConstants, which stands for the Map, fill
    and Unmap of the constant buffer; each changes only the binding its calls set;
    Clear and Draw calls are appended to an event log together with the state they see. */
module DeviceContexts {
  import opened Handles

  /** D3D11_VIEWPORT. */
  datatype Viewport = Viewport(topLeftX: real, topLeftY: real, width: real, height: real,
                               minDepth: real, maxDepth: real)

  /** The offset and noise fields of the blur constant buffer (half_pixel is not modelled). */
  datatype Constants = Constants(offset: real, noise: real)

  /** Binding of input-assembler vertex-buffer slot 0. */
  datatype VertexBinding = VertexBinding(buffer: Option<Handle>, stride: nat, offset: nat)

  /** What the context has been asked to do to render targets. */
  datatype Event =
    | Cleared(target: Option<Handle>)
    | Drawn(vertexCount: nat, target: Option<Handle>, viewport: Viewport, input: Option<Handle>,
           vertexShader: Option<Handle>, pixelShader: Option<Handle>, sampler: Option<Handle>,
           constants: Constants)

  /** D3D11_PRIMITIVE_TOPOLOGY_TRIANGLESTRIP. */
  const TriangleStrip: int := 5

  /** The shader-resource slots after binding `views` starting at slot `start`. */
  function BindSlots(slots: map<nat, Option<Handle>>, start: nat, views: seq<Option<Handle>>): (r: map<nat, Option<Handle>>)
    ensures forall k :: start <= k < start + |views| ==> k in r && r[k] == views[k - start]
    ensures forall k :: (k < start || k >= start + |views|) ==> (k in r <==> k in slots) && (k in slots ==> r[k] == slots[k])
    decreases |views|
  {
    if views == [] then slots else BindSlots(slots[start := views[0]], start + 1, views[1..])
  }

  class DeviceContext {
    var viewport: Viewport
    var renderTarget: Option<Handle>
    var depthView: Option<Handle>
    var rasterizerState: Option<Handle>
    var depthStencilState: Option<Handle>
    var stencilRef: int
    var vertexShader: Option<Handle>
    var pixelShader: Option<Handle>
    var psConstantBuffer: Option<Handle>
    var psSampler: Option<Handle>
    var psResources: map<nat, Option<Handle>>
    var inputLayout: Option<Handle>
    var vertexBuffer: VertexBinding
    var topology: int
    var constants: Constants
    var events: seq<Event>

    /** The view bound to pixel-shader resource slot `slot` (null when unbound). */
    function Input(slot: nat): Option<Handle>
      reads this
    {
      if slot in psResources then psResources[slot] else None
    }

    /** ClearRenderTargetView. */
    method ClearRenderTargetView(rtv: Option<Handle>)
      modifies this`events
      ensures events == old(events) + [Cleared(rtv)]
    {
      events := events + [Cleared(rtv)];
    }

    /** OMSetRenderTargets with one render target. */
    method OMSetRenderTargets(rtv: Option<Handle>, dsv: Option<Handle>)
      modifies this`renderTarget, this`depthView
      ensures renderTarget == rtv && depthView == dsv
    {
      renderTarget, depthView := rtv, dsv;
    }

    /** RSSetViewports with one viewport. */
    method RSSetViewports(vp: Viewport)
      modifies this`viewport
      ensures viewport == vp
    {
      viewport := vp;
    }

    method RSSetState(state: Option<Handle>)
      modifies this`rasterizerState
      ensures rasterizerState == state
    {
      rasterizerState := state;
    }

    method OMSetDepthStencilState(state: Option<Handle>, ref: int)
      modifies this`depthStencilState, this`stencilRef
      ensures depthStencilState == state && stencilRef == ref
    {
      depthStencilState, stencilRef := state, ref;
    }

    method VSSetShader(shader: Option<Handle>)
      modifies this`vertexShader
      ensures vertexShader == shader
    {
      vertexShader := shader;
    }

    method PSSetShader(shader: Option<Handle>)
      modifies this`pixelShader
      ensures pixelShader == shader
    {
      pixelShader := shader;
    }

    /** PSSetConstantBuffers on slot 0. */
    method PSSetConstantBuffers(buffer: Option<Handle>)
      modifies this`psConstantBuffer
      ensures psConstantBuffer == buffer
    {
      psConstantBuffer := buffer;
    }

    /** PSSetSamplers on slot 0. */
    method PSSetSamplers(sampler: Option<Handle>)
      modifies this`psSampler
      ensures psSampler == sampler
    {
      psSampler := sampler;
    }

    method PSSetShaderResources(start: nat, views: seq<Option<Handle>>)
      modifies this`psResources
      ensures psResources == BindSlots(old(psResources), start, views)
    {
      psResources := BindSlots(psResources, start, views);
    }

    /** IASetVertexBuffers on slot 0. */
    method IASetVertexBuffers(binding: VertexBinding)
      modifies this`vertexBuffer
      ensures vertexBuffer == binding
    {
      vertexBuffer := binding;
    }

    method IASetInputLayout(layout: Option<Handle>)
      modifies this`inputLayout
      ensures inputLayout == layout
    {
      inputLayout := layout;
    }

    method IASetPrimitiveTopology(t: int)
      modifies this`topology
      ensures topology == t
    {
      topology := t;
    }

    /** Map with WRITE_DISCARD, fill, Unmap of the blur constant buffer. */
    method WriteConstants(c: Constants)
      modifies this`constants
      ensures constants == c
    {
      constants := c;
    }

    /** Draw: logged with the target, viewport, input, shaders, sampler and constants it uses. */
    method Draw(vertexCount: nat)
      modifies this`events
      ensures events == old(events) + [Drawn(vertexCount, renderTarget, viewport, Input(0), vertexShader,
                                            pixelShader, psSampler, constants)]
    {
      events := events + [Drawn(vertexCount, renderTarget, viewport, Input(0), vertexShader,
                               pixelShader, psSampler, constants)];
    }
  }
}
