/** The records that travel between stages (server/common/models.go,
    server/common/messages.go and the raw input records of pkg/models).
    Fields the modelled code never reads are omitted; floating-point ratings
    are carried as `real` and never computed with. */
module Records {
  import opened Machine

  datatype Genre = Genre(id: int, name: string)
  datatype Country = Country(code: string, name: string)

  /** A movie as read from the input files; `releaseYear` stands for
      ReleaseDate.Year(), whose date parsing is not modelled. */
  datatype RawMovie = RawMovie(
    id: u32, title: string, releaseYear: int, genres: seq<Genre>,
    productionCountries: seq<Country>, budget: u32, overview: string, revenue: u64)

  datatype RawReview = RawReview(userId: string, movieId: string, rating: real)

  datatype CastMember = CastMember(id: int, name: string)
  datatype CrewMember = CrewMember(id: int, name: string, job: string)
  datatype RawCredits = RawCredits(cast: seq<CastMember>, crew: seq<CrewMember>, movieId: string)

  datatype Movie = Movie(
    id: string, title: string, year: int, genres: seq<Genre>,
    productionCountries: seq<Country>, budget: u64, revenue: u64, overview: string)

  datatype Sentiment = Positive | Negative
  datatype MovieWithSentiment = MovieWithSentiment(movie: Movie, sentiment: Sentiment)

  datatype Review = Review(id: string, movieId: string, rating: real)
  datatype Actor = Actor(actorId: string, name: string)
  datatype Credit = Credit(actors: seq<Actor>, movieId: string)
  datatype MovieReview = MovieReview(movieId: string, title: string, rating: real)

  /** Query 2 partial result. */
  datatype CountryBudget = CountryBudget(country: Country, budget: u64)
  /** Query 3 partial result: only the integer count of the rating accumulator. */
  datatype MovieRatingCount = MovieRatingCount(movieId: string, title: string, ratingCount: u32)
  /** Query 4 partial result. */
  datatype ActorMoviesAmount = ActorMoviesAmount(actorId: string, actorName: string, moviesAmount: u32)
  /** Query 5 partial result: only the integer counts of the two accumulators. */
  datatype SentimentCounts = SentimentCounts(positiveCount: u32, negativeCount: u32)
}
