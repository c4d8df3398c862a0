/**
 * The decode guard of the embedded camera scanner
 * (src/components/pos/BarcodeScannerEmbed.jsx): which decode callbacks
 * reach `onScan`, how starting, stopping and unmounting reset the guard,
 * and how camera failures become user messages. The camera, the decoder
 * library and their promises are not modelled. The two awaits of
 * `startScanning` (the camera check, then the decoder's start) each end in
 * a method of their own, so that a decode or an unmount can come between;
 * the await inside `stopScanning` is not split, so a stop is one step.
 */
module ScannerEmbed {

  import opened Common

  /** Why the camera check failed: no media-devices API, or an error with a name and a message. */
  datatype CameraFailure = NoMediaDevices | CameraError(name: string, message: string)

  const UnsupportedMessage: string := "Tu navegador no soporta acceso a la cámara"
  const PermissionDeniedMessage: string :=
    "Permiso de cámara denegado. Ve a la configuración de tu navegador y permite el acceso a la cámara."
  const NoCameraMessage: string := "No se encontró ninguna cámara en tu dispositivo."
  const CameraBusyMessage: string := "La cámara está siendo usada por otra aplicación."
  const CameraGenericMessage: string := "No se pudo acceder a la cámara."
  const StartGenericMessage: string := "No se pudo acceder a la cámara. Verifica los permisos."

  /**
   * The message of the error `checkCameraPermissions` rethrows. A missing
   * API is thrown inside the same `try`, as a plain `Error`, so it reaches
   * the last branch with its own message.
   */
  function CameraErrorMessage(f: CameraFailure): (msg: string)
    ensures msg != ""
    ensures f.CameraError? && f.name in {"NotAllowedError", "PermissionDeniedError"} ==> msg == PermissionDeniedMessage
    ensures f.CameraError? && f.name in {"NotFoundError", "DevicesNotFoundError"} ==> msg == NoCameraMessage
    ensures f.CameraError? && f.name in {"NotReadableError", "TrackStartError"} ==> msg == CameraBusyMessage
    ensures f.CameraError? && !(f.name in KnownNames) ==>
      msg == (if f.message != "" then f.message else CameraGenericMessage)
    ensures f.NoMediaDevices? ==> msg == UnsupportedMessage
  {
    match f
    case NoMediaDevices => MessageFor("Error", UnsupportedMessage)
    case CameraError(name, message) => MessageFor(name, message)
  }

  /** The `catch` branch's choice by error name. */
  function MessageFor(name: string, message: string): string {
    if name == "NotAllowedError" || name == "PermissionDeniedError" then PermissionDeniedMessage
    else if name == "NotFoundError" || name == "DevicesNotFoundError" then NoCameraMessage
    else if name == "NotReadableError" || name == "TrackStartError" then CameraBusyMessage
    else if message != "" then message
    else CameraGenericMessage
  }

  const KnownNames: set<string> := {
    "NotAllowedError", "PermissionDeniedError", "NotFoundError",
    "DevicesNotFoundError", "NotReadableError", "TrackStartError" }

  /** `err.message || 'No se pudo acceder…'` in `startScanning`'s handler. */
  function StartErrorMessage(message: string): (msg: string)
    ensures msg != ""
    ensures message != "" ==> msg == message
    ensures message == "" ==> msg == StartGenericMessage
  {
    if message != "" then message else StartGenericMessage
  }

  /** A failed camera check shows the classified message unchanged: it is never empty, so the start fallback never applies. */
  lemma CameraFailureShownAsClassified(f: CameraFailure)
    ensures StartErrorMessage(CameraErrorMessage(f)) == CameraErrorMessage(f)
    ensures CameraErrorMessage(f) != StartGenericMessage || (f.CameraError? && f.message == StartGenericMessage)
  {
  }

  /** How the decoder's `start` ended: it ran, or it threw an error with this message ("" for none). */
  datatype StartResult = Started | StartThrew(message: string)

  /** Where `startScanning` is: awaiting the camera check, awaiting the decoder's start, or finished. */
  datatype StartPhase = Checking | StartingDecoder | Finished

  class ScannerGuard {
    var scanning: bool
    var error: Option<string>
    /** `html5QrCodeRef.current !== null` */
    var hasDecoder: bool
    var isProcessing: bool
    var lastScanned: string
    var mounted: bool
    var phase: StartPhase
    /** A decoder whose start completed after the cleanup had dropped it: nothing will stop it. */
    var strayDecoder: bool
    /** An accepted code whose `stopScanning().then(…)` has not run yet. */
    var pending: Option<string>
    /** The codes handed to `onScan`, oldest first. */
    var emitted: seq<string>

    /**
     * Between events: a code is remembered only while it is being
     * processed, and while mounted a pending code is the one being
     * processed.
     */
    ghost predicate Valid()
      reads this
    {
      && (isProcessing || lastScanned == "")
      && (pending.Some? && mounted ==> isProcessing && lastScanned == pending.value)
    }

    /** The mount effect: `mountedRef` is set and `startScanning` runs up to its first `await`. */
    constructor ()
      ensures Valid()
      ensures mounted && phase == Checking && !scanning && !hasDecoder && error == None && !strayDecoder
      ensures !isProcessing && lastScanned == "" && pending == None && emitted == []
    {
      scanning, error, hasDecoder := false, None, false;
      isProcessing, lastScanned := false, "";
      mounted, phase, strayDecoder, pending, emitted := true, Checking, false, None, [];
    }

    /**
     * The camera check has answered: `check` is its failure, if any.
     * A failure is reported and ends the start. Otherwise, if the
     * component has unmounted meanwhile, the start ends quietly; if not,
     * the decoder is created and its start awaited. Returns what was
     * passed to `onError`.
     */
    method CheckDone(check: Option<CameraFailure>) returns (reported: Option<string>)
      requires Valid() && phase == Checking
      modifies this`scanning, this`error, this`hasDecoder, this`phase
      ensures Valid()
      ensures check.Some? ==>
        reported == Some(CameraErrorMessage(check.value)) && error == reported && !scanning
        && hasDecoder == old(hasDecoder) && phase == Finished
      ensures check.None? && !mounted ==>
        reported == None && phase == Finished && unchanged(this`scanning, this`error, this`hasDecoder)
      ensures check.None? && mounted ==>
        reported == None && phase == StartingDecoder && hasDecoder && unchanged(this`scanning, this`error)
    {
      if check.Some? {
        var msg := StartErrorMessage(CameraErrorMessage(check.value));
        error, scanning, phase := Some(msg), false, Finished;
        CameraFailureShownAsClassified(check.value);
        return Some(msg);
      }
      if !mounted {
        phase := Finished;
        return None;
      }
      hasDecoder, phase := true, StartingDecoder;
      reported := None;
    }

    /**
     * The decoder's start has answered. A failure is reported whether or
     * not the component is still mounted, since the `catch` does not look.
     * A success turns scanning on only while mounted; if the cleanup has
     * meanwhile stopped and dropped this decoder, it is left running.
     */
    method StartDone(start: StartResult) returns (reported: Option<string>)
      requires Valid() && phase == StartingDecoder
      modifies this`scanning, this`error, this`phase, this`strayDecoder
      ensures Valid() && phase == Finished
      ensures start.StartThrew? ==>
        reported == Some(StartErrorMessage(start.message)) && error == reported && !scanning
        && strayDecoder == old(strayDecoder)
      ensures start.Started? ==> reported == None && error == old(error)
      ensures start.Started? && mounted ==> scanning
      ensures start.Started? && !mounted ==> scanning == old(scanning)
      ensures start.Started? ==> strayDecoder == (old(strayDecoder) || !hasDecoder)
    {
      phase := Finished;
      if start.StartThrew? {
        var msg := StartErrorMessage(start.message);
        error, scanning := Some(msg), false;
        return Some(msg);
      }
      if !hasDecoder {
        strayDecoder := true;
      }
      if mounted {
        scanning := true;
      }
      reported := None;
    }

    /** The decode callback: whether `text` is accepted and a stop begins. */
    method OnDecode(text: string) returns (accepted: bool)
      requires Valid()
      modifies this`isProcessing, this`lastScanned, this`pending
      ensures Valid()
      ensures accepted <==> old(mounted && !isProcessing && lastScanned != text && pending.None?)
      // Once the processing flag is clear no code is remembered, so the
      // same-code check can only turn away the empty text.
      ensures accepted <==> old(mounted && !isProcessing) && text != ""
      ensures accepted ==> isProcessing && lastScanned == text && pending == Some(text)
      ensures !accepted ==> unchanged(this`isProcessing, this`lastScanned, this`pending)
    {
      if isProcessing || !mounted {
        return false;
      }
      if lastScanned == text {
        return false;
      }
      if pending.Some? {
        // While mounted, a pending code keeps `isProcessing` set.
        assert false;
      }
      isProcessing, lastScanned := true, text;
      pending := Some(text);
      accepted := true;
    }

    /** The resets at the end of `stopScanning`; a failing decoder stop is caught and changes nothing else. */
    method Stop()
      modifies this`hasDecoder, this`scanning, this`isProcessing, this`lastScanned
      ensures !hasDecoder && !scanning && !isProcessing && lastScanned == ""
    {
      hasDecoder := false;
      scanning, isProcessing, lastScanned := false, false, "";
    }

    /** `stopScanning().then(…)` of an accepted code: the stop ends, then `onScan` fires if still mounted. */
    method CompleteDecodeStop() returns (scanned: Option<string>)
      requires Valid() && pending.Some?
      modifies this`hasDecoder, this`scanning, this`isProcessing, this`lastScanned, this`pending, this`emitted
      ensures Valid()
      ensures !hasDecoder && !scanning && !isProcessing && lastScanned == "" && pending == None
      ensures scanned == (if mounted then old(pending) else None)
      ensures emitted == old(emitted) + (if mounted then [old(pending).value] else [])
    {
      var text := pending.value;
      Stop();
      pending := None;
      if mounted {
        emitted := emitted + [text];
        return Some(text);
      }
      return None;
    }

    /** The effect's cleanup: `mountedRef` is cleared before the stop. */
    method Unmount()
      requires Valid()
      modifies this
      ensures Valid()
      ensures !mounted && !hasDecoder && !scanning && !isProcessing && lastScanned == ""
      ensures pending == old(pending) && emitted == old(emitted) && phase == old(phase) && error == old(error)
      ensures strayDecoder == old(strayDecoder)
    {
      mounted := false;
      Stop();
    }
  }

  /**
   * A run of events: once a code is accepted, every decode is dropped until
   * the stop completes, `onScan` then fires once with that code, and after
   * unmounting nothing more is accepted or emitted.
   */
  method GuardScenario()
  {
    var g := new ScannerGuard();
    var r := g.CheckDone(None);
    r := g.StartDone(Started);
    assert g.scanning && r == None;
    var a := g.OnDecode("750100");
    assert a;
    var b := g.OnDecode("750100");
    var c := g.OnDecode("123");
    assert !b && !c;
    var s := g.CompleteDecodeStop();
    assert s == Some("750100") && g.emitted == ["750100"];
    var d := g.OnDecode("750100");
    assert d;
    g.Unmount();
    var e := g.OnDecode("123");
    assert !e;
    s := g.CompleteDecodeStop();
    assert s == None && g.emitted == ["750100"];
  }

  /**
   * Unmounting while the decoder's start is pending: the cleanup stops and
   * drops the decoder, the start then succeeds, scanning stays off and the
   * decoder is left running.
   */
  method UnmountDuringStartScenario()
  {
    var g := new ScannerGuard();
    var r := g.CheckDone(None);
    assert r == None && g.hasDecoder;
    g.Unmount();
    r := g.StartDone(Started);
    assert r == None && !g.scanning && g.strayDecoder && g.emitted == [];
  }
}
