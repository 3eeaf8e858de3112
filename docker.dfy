/**
 * The values the container manager hands to its callers. The manager itself
 * (remoteappmanager/docker/container_manager.py) is not part of this model; only
 * the attributes that the modelled handlers read are kept.
 */
module Docker {
  import opened Wrappers

  /** An image as reported by the container runtime. */
  datatype Image = Image(
    dockerId: string,
    name: string,
    uiName: string,
    description: string,
    icon128: string)

  /** A running container as reported by the container runtime. */
  datatype Container = Container(
    dockerId: string,
    name: string,
    imageName: string,
    imageId: string,
    ip: string,
    port: Option<nat>,
    mappingId: string,
    user: string,
    realm: string,
    urlId: string,
    urlpath: string)
}
