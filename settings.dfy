/** The two configuration values the endpoints read.  Loading them from the
    environment is not part of this model; they are passed in. */
module AppSettings {

  datatype Settings = Settings(appName: string, appVersion: string)
}
