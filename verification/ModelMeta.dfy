/** The model record of the repository, as far as deployment and status depend on it. */
module ModelMeta {

  datatype Model = Model(
    name: string, version: string, path: string, endpoint: string, engine: string, quant: string, vramBytes: nat,
    tensorParallel: int, pipelineParallel: int, port: int, replicas: int, description: string, status: Status)

  datatype Status = Online | Deploying | Offline | StatusError | Disabled
}
