/**
 * The device records returned by the SmartRent API, reduced to the fields the
 * platform and the API client look at.
 */
module Devices {

  /** A device attribute value: string, number, boolean or null. */
  datatype AttrValue = Text(text: string) | Number(number: int) | Flag(flag: bool) | Null

  /** Attribute record of a device, keyed by attribute name (`leak`, `locked`, `on`, ...). */
  type Attributes = map<string, AttrValue>

  /**
   * A device as listed in a room: its numeric id, display name, type tag
   * (`entry_control`, `switch_binary`, `sensor_notification`, or anything else the
   * server sends), attributes and the hub id of its room.
   */
  datatype Device = Device(id: int, name: string, deviceType: string, attributes: Attributes, hubId: int)
}
