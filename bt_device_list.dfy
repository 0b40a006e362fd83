/** The Bluetooth device list of ui/bt_device_list.c: a fixed table of device
    names, a bounds-checked lookup and a loop that adds one label per entry. */
module BtDeviceList {
  import opened CTypes

  const BT_DEVICES: seq<string> := ["Ryan's Headphones", "Ryan's Earbuds", "Sedona's Smart-Bone"]

  /** get_bt_device: the name at `id`, or None (a null pointer) past the end
      of the table. */
  function GetBtDevice(id: uint32): (r: Option<string>)
    ensures id < 3 ==> r == Some(BT_DEVICES[id])
    ensures id >= 3 ==> r == None
  {
    if id >= |BT_DEVICES| then None else Some(BT_DEVICES[id])
  }

  /** The lookup succeeds exactly on the indices of the table, and every
      name it returns is in the table. */
  lemma GetBtDeviceDomain(id: uint32)
    ensures GetBtDevice(id).Some? <==> id < |BT_DEVICES|
    ensures GetBtDevice(id).Some? ==> GetBtDevice(id).value in BT_DEVICES
  {
  }

  /** An LVGL object, seen only through the texts of the labels created
      under it. */
  class LvObj {
    var labels: seq<string>

    constructor ()
      ensures labels == []
    {
      labels := [];
    }

    /** lv_label_create(parent) followed by lv_label_set_text(label, text). */
    method AddLabel(text: string)
      modifies this
      ensures labels == old(labels) + [text]
    {
      labels := labels + [text];
    }
  }

  /** lv_bt_device_list_create: looks devices up from id 0 until the lookup
      fails, adding one label per device. The C function returns no value
      although it is declared to return a pointer, so the model returns
      nothing. */
  method LvBtDeviceListCreate(parent: LvObj)
    modifies parent
    ensures parent.labels == old(parent.labels) + BT_DEVICES
    ensures |parent.labels| == |old(parent.labels)| + 3
  {
    var id: uint32 := 0;
    while true
      invariant id <= 3
      invariant parent.labels == old(parent.labels) + BT_DEVICES[..id]
      decreases 3 - id
    {
      var btDevice := GetBtDevice(id);
      if btDevice.None? { break; }
      parent.AddLabel(btDevice.value);
      id := id + 1;
    }
    assert id == 3;
    assert BT_DEVICES[..id] == BT_DEVICES;
  }
}
