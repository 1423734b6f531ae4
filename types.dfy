/** The record shapes of src/types.ts that the core fills in, and the environment the transports read. */
module Types {

  /** `SSHConfig`: where to connect and with which credentials. */
  datatype SshConfig = SshConfig(host: string, username: string, password: string)

  /**
   * The variables `AP_IP`, `AP_USERNAME` and `AP_PASSWORD` the transports read; "" stands for
   * unset as well as empty, since both are false to `||` and `!`.
   */
  datatype Environment = Environment(apIp: string, apUsername: string, apPassword: string)

  /** `ACXStatus`: the management-service status reported by `get acx`. */
  datatype AcxStatus = AcxStatus(
    serviceEnabled: bool,
    managedByAcx: bool,
    state: string,
    connectionStatus: string,
    serverList: string,
    configUpdateState: string,
    heartbeatInterval: nat,
    certValidation: string)

  /** `SerialInfo`: the access point's serial number and model, read from the login banner. */
  datatype SerialInfo = SerialInfo(serial: string, model: string)

  /** One radio's entry of `ExternalAntennaInfo`. */
  datatype AntennaRadio = AntennaRadio(mode: string, gain: string)

  /** `ExternalAntennaInfo`: the antenna mode and gain of radios wifi0 and wifi1. */
  datatype ExternalAntennaInfo = ExternalAntennaInfo(wifi0: AntennaRadio, wifi1: AntennaRadio)
}
