/** The parts of the kubelet device-plugin API (version v1alpha) that the plugin
    lifecycle code uses: the well-known paths, the protocol version, the device
    record and the request/response shapes of Register and Allocate. */
module PluginApi {

  /** The protocol version announced in every registration request. */
  const Version: string := "v1alpha"

  /** The shared registration directory; it ends with a slash. */
  const DevicePluginPath: string := "/var/lib/kubelet/device-plugins/"

  /** The kubelet's own registration socket inside that directory. */
  const KubeletSocket: string := DevicePluginPath + "kubelet.sock"

  datatype Health = Healthy | Unhealthy

  /** One advertised device: an opaque id and its health. */
  datatype Device = Device(id: string, health: Health)

  /** What a plugin sends to the kubelet to register itself. */
  datatype RegisterRequest = RegisterRequest(version: string, endpoint: string, resourceName: string)

  /** One message of the ListAndWatch stream. */
  datatype ListAndWatchResponse = ListAndWatchResponse(devices: seq<Device>)

  datatype AllocateRequest = AllocateRequest(devicesIds: seq<string>)

  datatype Mount = Mount(containerPath: string, hostPath: string, readOnly: bool)

  datatype DeviceSpec = DeviceSpec(containerPath: string, hostPath: string, permissions: string)

  datatype AllocateResponse = AllocateResponse(
    envs: map<string, string>,
    mounts: seq<Mount>,
    devices: seq<DeviceSpec>,
    annotations: map<string, string>)
}
