/** The Khronos validation layer: whether it is enabled and installed, the
    lifetime of the debug messenger, and how the debug callback breaks a
    validation message into lines for the error box. */
module ValidationLayers {
  import opened VkTypes

  /** The layer the renderer asks for. */
  const KhronosValidationLayer: string := "VK_LAYER_KHRONOS_validation"

  const RequiredValidationLayers: seq<string> := [KhronosValidationLayer]

  /** VK_ERROR_EXTENSION_NOT_PRESENT. */
  const ErrorExtensionNotPresent := OtherResult(-7)

  /** Validation is compiled in for debug builds, except on Apple platforms. */
  function ValidationLayersEnabled(debugBuild: bool, applePlatform: bool): (enabled: bool)
    ensures enabled <==> debugBuild && !applePlatform
  {
    if applePlatform then false else debugBuild
  }

  /** Every required layer is among the layers the loader reports, compared
      by name. */
  method AreSupported(availableLayers: seq<string>) returns (supported: bool)
    ensures supported <==> forall i :: 0 <= i < |RequiredValidationLayers| ==> RequiredValidationLayers[i] in availableLayers
  {
    var i := 0;
    while i < |RequiredValidationLayers|
      invariant 0 <= i <= |RequiredValidationLayers|
      invariant forall k :: 0 <= k < i ==> RequiredValidationLayers[k] in availableLayers
    {
      var layerName := RequiredValidationLayers[i];
      var layerFound := false;
      var j := 0;
      while j < |availableLayers|
        invariant 0 <= j <= |availableLayers|
        invariant layerFound ==> layerName in availableLayers
        invariant !layerFound ==> layerName !in availableLayers[..j]
      {
        if layerName == availableLayers[j] {
          layerFound := true;
          break;
        }
        j := j + 1;
      }
      if !layerFound {
        assert availableLayers[..j] == availableLayers;
        return false;
      }
      i := i + 1;
    }
    return true;
  }

  /** The layer is usable exactly when the loader lists it. */
  lemma SupportedIffKhronosListed(availableLayers: seq<string>)
    ensures (forall i :: 0 <= i < |RequiredValidationLayers| ==> RequiredValidationLayers[i] in availableLayers)
            <==> KhronosValidationLayer in availableLayers
  {
    assert RequiredValidationLayers[0] == KhronosValidationLayer;
  }

  // ---------------------------------------------------------------------
  // The debug messenger
  // ---------------------------------------------------------------------

  /** The static debug messenger; the instance-level create and destroy
      functions the loader may or may not provide are parameters. */
  class DebugMessenger {
    var messenger: Handle

    constructor()
      ensures messenger == NullHandle
    {
      messenger := NullHandle;
    }

    /** Creates the messenger through the loaded create function, or reports
        the extension missing when the loader has none. The create function's
        result and the handle it writes are parameters. */
    method CreateDebugUtilsMessenger(createFunctionLoaded: bool, createResult: VkResult, createdMessenger: Handle) returns (result: VkResult)
      modifies this
      ensures !createFunctionLoaded ==> result == ErrorExtensionNotPresent && messenger == old(messenger)
      ensures createFunctionLoaded ==> result == createResult
      ensures createFunctionLoaded && createResult == Success ==> messenger == createdMessenger
      ensures createFunctionLoaded && createResult != Success ==> messenger == old(messenger)
    {
      if !createFunctionLoaded {
        return ErrorExtensionNotPresent;
      }
      if createResult == Success {
        messenger := createdMessenger;
      }
      return createResult;
    }

    /** Creates the messenger and fails unless creation succeeded. */
    method SetupDebugUtilsMessenger(createFunctionLoaded: bool, createResult: VkResult, createdMessenger: Handle) returns (ok: bool)
      modifies this
      ensures ok <==> createFunctionLoaded && createResult == Success
      ensures ok ==> messenger == createdMessenger
      ensures !ok ==> messenger == old(messenger)
    {
      var result := CreateDebugUtilsMessenger(createFunctionLoaded, createResult, createdMessenger);
      ok := result == Success;
    }

    /** Destroys the messenger, and forgets it, only when the loader has a
        destroy function and a messenger exists; returns whether the destroy
        function was called. */
    method DestroyDebugUtilsMessenger(destroyFunctionLoaded: bool) returns (destroyed: bool)
      modifies this
      ensures destroyed <==> destroyFunctionLoaded && old(messenger) != NullHandle
      ensures destroyed ==> messenger == NullHandle
      ensures !destroyed ==> messenger == old(messenger)
    {
      destroyed := destroyFunctionLoaded && messenger != NullHandle;
      if destroyed {
        messenger := NullHandle;
      }
    }
  }

  // ---------------------------------------------------------------------
  // Message wrapping
  // ---------------------------------------------------------------------

  /** MaxErrorBoxMessageLineLength. */
  const MaxLineLength: nat := 100

  /** The message is the bytes of its std::string (UTF-8 from the layer), so
      line lengths are counted in bytes, not in characters. */
  const Space: Byte := 0x20
  const LineFeed: Byte := 0x0A

  /** The wrapped rest of a message when `count` bytes have been counted
      since the last inserted break: a space once more than the maximum has
      been counted becomes a line break and restarts the count; every other
      byte is kept and counted. */
  function Wrapped(message: seq<Byte>, count: nat): (r: seq<Byte>)
    ensures |r| == |message|
    decreases |message|
  {
    if |message| == 0 then []
    else if message[0] == Space && count > MaxLineLength then [LineFeed] + Wrapped(message[1..], 0)
    else [message[0]] + Wrapped(message[1..], count + 1)
  }

  /** Wrapping keeps the length and changes nothing but spaces, each into a
      line break. */
  lemma {:induction false} WrapOnlyBreaksSpaces(message: seq<Byte>, count: nat)
    ensures forall i :: 0 <= i < |message| && Wrapped(message, count)[i] != message[i] ==>
              message[i] == Space && Wrapped(message, count)[i] == LineFeed
    decreases |message|
  {
    if |message| > 0 {
      var broke := message[0] == Space && count > MaxLineLength;
      var tail := Wrapped(message[1..], if broke then 0 else count + 1);
      WrapOnlyBreaksSpaces(message[1..], if broke then 0 else count + 1);
      var r := Wrapped(message, count);
      assert forall i :: 0 < i < |message| ==> r[i] == tail[i - 1] && message[i] == message[1..][i - 1];
    }
  }

  /** An inserted break at position i follows more than the maximum counted
      bytes, none of them an inserted break. */
  lemma {:induction false} BreakFollowsFullLine(message: seq<Byte>, count: nat, i: nat)
    requires i < |message|
    requires Wrapped(message, count)[i] != message[i]
    ensures i + count > MaxLineLength
    ensures forall j :: 0 <= j < i && i - (MaxLineLength + 1) <= j ==> Wrapped(message, count)[j] == message[j]
    decreases |message|
  {
    var r := Wrapped(message, count);
    if i > 0 {
      var broke := message[0] == Space && count > MaxLineLength;
      var count' := if broke then 0 else count + 1;
      var tail := Wrapped(message[1..], count');
      assert r == [r[0]] + tail;
      assert tail[i - 1] != message[1..][i - 1];
      BreakFollowsFullLine(message[1..], count', i - 1);
      forall j | 0 <= j < i && i - (MaxLineLength + 1) <= j
        ensures r[j] == message[j]
      {
        if j > 0 {
          assert r[j] == tail[j - 1] && message[j] == message[1..][j - 1];
        }
      }
    }
  }

  /** A space is broken once more than the maximum bytes have been
      counted with no inserted break among the last maximum + 1. */
  lemma {:induction false} FullLineBreaksAtSpace(message: seq<Byte>, count: nat, i: nat)
    requires i < |message| && message[i] == Space
    requires i + count > MaxLineLength
    requires forall j :: 0 <= j < i && i - (MaxLineLength + 1) <= j ==> Wrapped(message, count)[j] == message[j]
    ensures Wrapped(message, count)[i] == LineFeed
    decreases |message|
  {
    var r := Wrapped(message, count);
    var broke := message[0] == Space && count > MaxLineLength;
    var count' := if broke then 0 else count + 1;
    var tail := Wrapped(message[1..], count');
    assert r == [if broke then LineFeed else message[0]] + tail;
    if i > 0 {
      forall j | 0 <= j < i - 1 && i - 1 - (MaxLineLength + 1) <= j
        ensures tail[j] == message[1..][j]
      {
        assert r[j + 1] == message[j + 1];
      }
      if broke {
        assert r[0] != message[0];
      }
      FullLineBreaksAtSpace(message[1..], count', i - 1);
    }
  }

  /** From the start of a message: a space becomes a line break exactly
      when more than the maximum bytes stand between it and the start
      or the previous inserted break. */
  lemma WrapBreaksExactlyFullLines(message: seq<Byte>, i: nat)
    requires i < |message| && message[i] == Space
    ensures var r := Wrapped(message, 0);
            r[i] == LineFeed <==> i > MaxLineLength && forall j :: 0 <= j < i && i - (MaxLineLength + 1) <= j ==> r[j] == message[j]
  {
    var r := Wrapped(message, 0);
    if r[i] == LineFeed {
      BreakFollowsFullLine(message, 0, i);
    }
    if i > MaxLineLength && forall j :: 0 <= j < i && i - (MaxLineLength + 1) <= j ==> r[j] == message[j] {
      FullLineBreaksAtSpace(message, 0, i);
    }
  }

  /** One step of the wrapping: the first byte's fate and the count
      the rest is wrapped with. */
  lemma WrapStep(message: seq<Byte>, count: nat)
    requires |message| > 0
    ensures var broke := message[0] == Space && count > MaxLineLength;
            Wrapped(message, count)
            == [if broke then LineFeed else message[0]] + Wrapped(message[1..], if broke then 0 else count + 1)
  {
  }

  /** Overwriting the first unprocessed byte of a partly rewritten
      message. */
  lemma RewriteNext(done: seq<Byte>, message: seq<Byte>, i: nat, c: Byte)
    requires |done| == i < |message|
    ensures (done + message[i..])[i := c] == (done + [c]) + message[i + 1..]
  {
  }

  /** The loop of the debug callback takes one more byte of the
      wrapped message. */
  lemma WrapLoopStep(message: seq<Byte>, done: seq<Byte>, i: nat, lineLength: nat)
    requires |done| == i < |message|
    requires Wrapped(message, 0) == done + Wrapped(message[i..], lineLength)
    ensures var broke := message[i] == Space && lineLength > MaxLineLength;
            Wrapped(message, 0)
            == (done + [if broke then LineFeed else message[i]]) + Wrapped(message[i + 1..], if broke then 0 else lineLength + 1)
  {
    WrapStep(message[i..], lineLength);
    assert message[i..][1..] == message[i + 1..];
  }

  /** The debug callback: copies the message, breaks it into lines for the
      error box (shown by SDL, not modelled) and tells the layer not to abort
      the Vulkan call (VK_FALSE). */
  method DebugCallback(message: seq<Byte>) returns (abortCall: bool, boxMessage: seq<Byte>)
    ensures !abortCall
    ensures boxMessage == Wrapped(message, 0)
  {
    boxMessage := message;
    var lineLength: nat := 0;
    ghost var done: seq<Byte> := [];
    var i := 0;
    while i < |boxMessage|
      invariant 0 <= i <= |message| && |done| == i
      invariant boxMessage == done + message[i..]
      invariant Wrapped(message, 0) == done + Wrapped(message[i..], lineLength)
    {
      WrapLoopStep(message, done, i, lineLength);
      assert boxMessage[i] == message[i];
      if boxMessage[i] == Space && lineLength > MaxLineLength {
        RewriteNext(done, message, i, LineFeed);
        boxMessage := boxMessage[i := LineFeed];
        done := done + [LineFeed];
        lineLength := 0;
      } else {
        RewriteNext(done, message, i, message[i]);
        done := done + [message[i]];
        lineLength := lineLength + 1;
      }
      i := i + 1;
    }
    abortCall := false;
  }
}
