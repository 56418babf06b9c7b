/**
  The string constants of the protocol package and of the bus package.
  The dispatch rule and the watch requests depend on these exact literals.
 */
module Consts {

  // Destination and root object of every BlueZ call.
  const BluezDest := "org.bluez"
  const BluezRootPath := "/org/bluez"

  // The BlueZ interfaces that have a registered constructor.
  const Adapter1 := "org.bluez.Adapter1"
  const Device1 := "org.bluez.Device1"
  const AgentManager1 := "org.bluez.AgentManager1"
  const MediaTransport1 := "org.bluez.MediaTransport1"
  const GattService1 := "org.bluez.GattService1"
  const GattCharacteristic1 := "org.bluez.GattCharacteristic1"
  const GattDescriptor1 := "org.bluez.GattDescriptor1"

  // Remote methods called by the variants.
  const AdapterStartDiscovery := "org.bluez.Adapter1.StartDiscovery"
  const AdapterStopDiscovery := "org.bluez.Adapter1.StopDiscovery"
  const AdapterConnect := "org.bluez.Adapter1.Connect"
  const DeviceConnect := "org.bluez.Device1.Connect"
  const DeviceDisconnect := "org.bluez.Device1.Disconnect"
  const DeviceConnectProfile := "org.bluez.Device1.ConnectProfile"
  const DeviceDisconnectProfile := "org.bluez.Device1.DisconnectProfile"
  const CharacteristicReadValue := "org.bluez.GattCharacteristic1.ReadValue"
  const CharacteristicStartNotify := "org.bluez.GattCharacteristic1.StartNotify"
  const CharacteristicStopNotify := "org.bluez.GattCharacteristic1.StopNotify"
  // The descriptor's method name is not qualified by its interface.
  const DescriptorReadValue := "ReadValue"

  // Property names read by GetDevicePath.
  const AdapterProp := "Adapter"
  const AddressProp := "Address"

  // Generic D-Bus interfaces and signals.
  const ObjectManager := "org.freedesktop.DBus.ObjectManager"
  const Properties := "org.freedesktop.DBus.Properties"
  const Introspectable := "org.freedesktop.DBus.Introspectable"
  const RootPath := "/"
  const InterfacesAdded := "InterfacesAdded"
  const InterfacesRemoved := "InterfacesRemoved"
  const PropertiesChanged := "org.freedesktop.DBus.Properties.PropertiesChanged"
}
