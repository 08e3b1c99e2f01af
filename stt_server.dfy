/**
 stt_server.py: the choice of input device. The audio library's device
 list is given as a sequence of records with a name and a count of input
 channels; the listing printed first is presentation only.
 */
module SttServer {
  import opened Wrappers
  import opened Texto

  /** One entry of the audio library's device list. */
  datatype Device = Device(name: string, maxInputChannels: int)

  predicate TieneEntrada(d: Device) {
    d.maxInputChannels > 0
  }

  /** An input device whose lower-cased name mentions "usb" or "pnp". */
  predicate EsMicrofonoUsb(d: Device) {
    TieneEntrada(d) && (Contains(Lower(d.name), "usb") || Contains(Lower(d.name), "pnp"))
  }

  /**
   `find_usb_microphone()`: the first USB/PnP input device if there is one,
   even when a plain input device comes earlier; failing that the first
   device with input channels; `None` exactly when no device has any.
   */
  method FindUsbMicrophone(devices: seq<Device>) returns (r: Option<nat>)
    ensures r.Some? ==> r.value < |devices| && TieneEntrada(devices[r.value])
    ensures r.None? <==> forall k :: 0 <= k < |devices| ==> !TieneEntrada(devices[k])
    ensures (exists k :: 0 <= k < |devices| && EsMicrofonoUsb(devices[k])) ==>
      && r.Some? && EsMicrofonoUsb(devices[r.value])
      && forall k :: 0 <= k < r.value ==> !EsMicrofonoUsb(devices[k])
    ensures (forall k :: 0 <= k < |devices| ==> !EsMicrofonoUsb(devices[k])) && r.Some? ==>
      forall k :: 0 <= k < r.value ==> !TieneEntrada(devices[k])
  {
    for i := 0 to |devices|
      invariant forall k :: 0 <= k < i ==> !EsMicrofonoUsb(devices[k])
    {
      var name := Lower(devices[i].name);
      if devices[i].maxInputChannels > 0 && (Contains(name, "usb") || Contains(name, "pnp")) {
        return Some(i);
      }
    }
    for i := 0 to |devices|
      invariant forall k :: 0 <= k < i ==> !TieneEntrada(devices[k])
    {
      if devices[i].maxInputChannels > 0 {
        return Some(i);
      }
    }
    return None;
  }
}
