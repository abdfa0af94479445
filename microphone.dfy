/**
 * The microphone picker of components/MicrophoneSelector.tsx: when opened it
 * lists the audio inputs, pre-selects the "default" device (or the first
 * one), and lets the user pick any input that has a label and is not one of
 * the browser's "default"/"communications" aliases.
 */
module Microphone {
  import opened Wrappers
  import opened Text
  import opened Lists

  /** The part of a `MediaDeviceInfo` the picker looks at. */
  datatype MediaDevice = MediaDevice(deviceId: string, kind: string, deviceLabel: string)

  const AudioInput: string := "audioinput"

  /** `allDevices.filter(d => d.kind === "audioinput")`. */
  function AudioInputs(all: seq<MediaDevice>): (r: seq<MediaDevice>)
    ensures IsSubsequence(r, all)
    ensures forall i :: 0 <= i < |r| ==> r[i].kind == AudioInput
    ensures forall i :: 0 <= i < |all| && all[i].kind == AudioInput ==> all[i] in r
    ensures forall x :: multiset(r)[x] == if x.kind == AudioInput then multiset(all)[x] else 0
  {
    if all == [] then []
    else
      assert all == [all[0]] + all[1..];
      if all[0].kind == AudioInput then [all[0]] + AudioInputs(all[1..])
      else AudioInputs(all[1..])
  }

  /** Position of the first device whose id is `id`, or -1 (`Array.prototype.findIndex`). */
  function FirstWithId(s: seq<MediaDevice>, id: string): (r: int)
    ensures -1 <= r < |s|
    ensures r == -1 <==> forall i :: 0 <= i < |s| ==> s[i].deviceId != id
    ensures r >= 0 ==> s[r].deviceId == id && forall j :: 0 <= j < r ==> s[j].deviceId != id
  {
    if s == [] then -1
    else if s[0].deviceId == id then 0
    else
      var k := FirstWithId(s[1..], id);
      if k == -1 then -1 else k + 1
  }

  /** `inputs.find(d => d.deviceId === "default") || inputs[0]`: the first
      device with id "default", else the first device, else nothing. */
  function DefaultDevice(inputs: seq<MediaDevice>): (r: Option<MediaDevice>)
    ensures r.None? <==> inputs == []
    ensures r.Some? ==> r.value in inputs
    ensures FirstWithId(inputs, "default") >= 0 ==> r == Some(inputs[FirstWithId(inputs, "default")])
    ensures (exists i :: 0 <= i < |inputs| && inputs[i].deviceId == "default") ==>
      r.Some? && r.value.deviceId == "default"
    ensures (forall i :: 0 <= i < |inputs| ==> inputs[i].deviceId != "default") && inputs != [] ==>
      r == Some(inputs[0])
  {
    var k := FirstWithId(inputs, "default");
    if k >= 0 then Some(inputs[k])
    else if inputs != [] then Some(inputs[0])
    else None
  }

  /** A label that carries "default" or "communication" in any letter case. */
  predicate MarksPrimary(name: string) {
    Contains(ToLower(name), "default") || Contains(ToLower(name), "communication")
  }

  /** `formatDeviceName`: "Unknown Device" for an empty label, the label in
      capitals when it names the default or communications device, and the
      label as it is otherwise. */
  function FormatDeviceName(d: MediaDevice): (r: string)
    ensures d.deviceLabel == "" ==> r == "Unknown Device"
    ensures d.deviceLabel != "" && MarksPrimary(d.deviceLabel) ==> r == ToUpper(d.deviceLabel)
    ensures d.deviceLabel != "" && !MarksPrimary(d.deviceLabel) ==> r == d.deviceLabel
  {
    if d.deviceLabel == "" then "Unknown Device"
    else if MarksPrimary(d.deviceLabel) then ToUpper(d.deviceLabel)
    else d.deviceLabel
  }

  /** A labelled device is shown with its own letters, only their case may change. */
  lemma FormatKeepsLetters(d: MediaDevice)
    requires d.deviceLabel != ""
    ensures |FormatDeviceName(d)| == |d.deviceLabel|
    ensures ToLower(FormatDeviceName(d)) == ToLower(d.deviceLabel)
  {
    LowerOfUpper(d.deviceLabel);
  }

  /** Formatting an already formatted label changes nothing. */
  lemma FormatIdempotent(d: MediaDevice)
    requires d.deviceLabel != ""
    ensures FormatDeviceName(d.(deviceLabel := FormatDeviceName(d))) == FormatDeviceName(d)
  {
    LowerOfUpper(d.deviceLabel);
    UpperIdempotent(d.deviceLabel);
  }

  /** `isDeviceAvailable`: a device can be picked when it has a label and is
      not one of the "default"/"communications" aliases. */
  predicate IsDeviceAvailable(d: MediaDevice) {
    d.deviceLabel != "" && d.deviceId != "default" && d.deviceId != "communications"
  }

  /** When the browser offers a "default" alias, the pre-selected device is
      that alias, which the list shows as not available: the user can move
      away from it but never click back onto it. */
  lemma DefaultAliasNotPickable(inputs: seq<MediaDevice>)
    requires exists i :: 0 <= i < |inputs| && inputs[i].deviceId == "default"
    ensures DefaultDevice(inputs).Some? && !IsDeviceAvailable(DefaultDevice(inputs).value)
  {
  }

  /** The text of the current-selection box. */
  function CurrentLabel(current: Option<MediaDevice>): (r: string)
    ensures r != ""
    ensures current.None? ==> r == "Default - Microphone"
    ensures current.Some? && current.value.deviceLabel != "" ==> r == current.value.deviceLabel
    ensures current.Some? && current.value.deviceLabel == "" ==> r == "Default Microphone"
  {
    if current.None? then "Default - Microphone"
    else if current.value.deviceLabel != "" then current.value.deviceLabel
    else "Default Microphone"
  }

  /** What the permission request and `enumerateDevices` yield: the device
      list, or a failure (permission denied or no media devices). */
  datatype DeviceQuery = Granted(all: seq<MediaDevice>) | Failed

  class MicrophoneSelectorState {
    var devices: seq<MediaDevice>
    var selectedDevice: string
    var currentDevice: Option<MediaDevice>

    /** Only audio inputs are listed, and the current device is the selected one. */
    ghost predicate Valid()
      reads this
    {
      && (forall i :: 0 <= i < |devices| ==> devices[i].kind == AudioInput)
      && (currentDevice.Some? ==> selectedDevice == currentDevice.value.deviceId)
    }

    constructor ()
      ensures Valid()
      ensures devices == [] && selectedDevice == "" && currentDevice == None
    {
      devices := [];
      selectedDevice := "";
      currentDevice := None;
    }

    /** The effect on `isOpen`: when open, list the audio inputs and
        pre-select the default one; a failed query changes nothing. */
    method LoadDevices(isOpen: bool, query: DeviceQuery)
      requires Valid()
      modifies this
      ensures Valid()
      ensures !isOpen || query.Failed? ==>
        devices == old(devices) && selectedDevice == old(selectedDevice) && currentDevice == old(currentDevice)
      ensures isOpen && query.Granted? ==>
        var inputs := AudioInputs(query.all);
        && devices == inputs
        && (DefaultDevice(inputs).Some? ==>
              currentDevice == DefaultDevice(inputs) && selectedDevice == DefaultDevice(inputs).value.deviceId)
        && (DefaultDevice(inputs).None? ==>
              selectedDevice == old(selectedDevice) && currentDevice == old(currentDevice))
    {
      if isOpen && query.Granted? {
        var inputs := AudioInputs(query.all);
        devices := inputs;
        var d := DefaultDevice(inputs);
        if d.Some? {
          selectedDevice := d.value.deviceId;
          currentDevice := d;
        }
      }
    }

    /** `handleDeviceSelect`: select `device` and ask the parent to close. */
    method HandleDeviceSelect(device: MediaDevice) returns (closeRequested: bool)
      requires Valid()
      modifies this`selectedDevice, this`currentDevice
      ensures Valid()
      ensures selectedDevice == device.deviceId && currentDevice == Some(device)
      ensures closeRequested
    {
      selectedDevice := device.deviceId;
      currentDevice := Some(device);
      closeRequested := true;
    }

    /** A click on a row: only an available device is selected. */
    method ClickDevice(device: MediaDevice) returns (closeRequested: bool)
      requires Valid()
      modifies this`selectedDevice, this`currentDevice
      ensures Valid()
      ensures IsDeviceAvailable(device) ==>
        selectedDevice == device.deviceId && currentDevice == Some(device) && closeRequested
      ensures !IsDeviceAvailable(device) ==>
        selectedDevice == old(selectedDevice) && currentDevice == old(currentDevice) && !closeRequested
    {
      closeRequested := false;
      if IsDeviceAvailable(device) {
        closeRequested := HandleDeviceSelect(device);
      }
    }

    /** A row is marked "Currently selected". */
    predicate IsSelected(device: MediaDevice)
      reads this
    {
      device.deviceId == selectedDevice
    }
  }
}
