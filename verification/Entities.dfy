/** The data the upstream services are asked for. */
module Entities {
  /** Instants are nanoseconds since some origin. */
  datatype TideEvent = TideEvent(time: int, height: real)

  datatype TideData = TideData(portCode: string, date: string, highTides: seq<TideEvent>, lowTides: seq<TideEvent>,
                               tideType: string)

  datatype WeatherData = WeatherData(temperature: real, feelsLike: real, windSpeed: real, windDeg: int,
                                     pressure: real, humidity: int, description: string, dateTime: int)

  datatype Place = Place(name: string, latitude: real, longitude: real, prefecture: string, region: string)
}
